// The Incus proxy driver: device strings, their parser, and the idempotent
// application of exposures to a map of instance devices.
module ProxyDevices {
  import opened Text
  import opened PortAllocation
  import opened Instances
  import opened Exposures

  const SSH_PORT_MIN: int := 22100
  const SSH_PORT_MAX: int := 22200

  predicate SSHPort(port: int) { SSH_PORT_MIN <= port <= SSH_PORT_MAX }

  // ---------------------------------------------------------------- printing

  function DeviceName(exposureID: string): string {
    "mystic-exp-" + Replace(Replace(exposureID, '/', '-'), ' ', '-')
  }

  function Endpoint(address: string, port: int): string {
    "tcp" + ":" + address + ":" + SignedDecimal(port)
  }

  function ListenString(e: Exposure): string {
    Endpoint(if e.publicIP == "" then "0.0.0.0" else e.publicIP, e.publicPort)
  }

  // The shorthand the driver also accepts as the wildcard address.
  function ListenShorthand(e: Exposure): string { Endpoint("", e.publicPort) }

  function ConnectString(e: Exposure): string { Endpoint(e.internalIP, e.internalPort) }

  // ----------------------------------------------------------------- parsing

  datatype DiscoveredProxy = DiscoveredProxy(
    deviceName: string, publicPort: int, publicIP: string, privateIP: string, destinationPort: int, protocol: string)

  function ParseSSHProxyDevice(deviceName: string, dev: Device): Option<DiscoveredProxy> {
    var devType := ToLower(Property(dev, "type"));
    var listen, connect := TrimSpace(Property(dev, "listen")), TrimSpace(Property(dev, "connect"));
    if devType != "" && devType != "proxy" then None
    else if listen == "" || connect == "" then None
    else ParseParts(deviceName, Split(listen, ':'), Split(connect, ':'))
  }

  function ParseParts(deviceName: string, listen: seq<string>, connect: seq<string>): Option<DiscoveredProxy>
    requires |listen| >= 1 && |connect| >= 1
  {
    if |listen| < 2 || ToUpper(listen[0]) != "TCP" then None
    else
      var port := Atoi(listen[|listen| - 1]);
      var destination := Atoi(connect[|connect| - 1]);
      if port.None? || !SSHPort(port.value) || |connect| < 2 || destination != Some(22) then None
      else
        Some(DiscoveredProxy(
          deviceName, port.value,
          if |listen| == 3 && listen[1] != "" then listen[1] else "0.0.0.0",
          if |connect| == 3 then connect[1] else if |connect| == 2 then connect[0] else "",
          22, ToUpper(listen[0])))
  }

  lemma EndpointSplits(address: string, port: int)
    ensures Split(Endpoint(address, port), ':') == ["tcp"] + Split(address, ':') + [SignedDecimal(port)]
    ensures TrimSpace(Endpoint(address, port)) == Endpoint(address, port)
  {
    var digits := SignedDecimal(port);
    if ':' in digits {
      SignedDecimalHas(port, ':');
    }
    SplitClean("tcp", ':');
    SplitClean(digits, ':');
    SplitAppend("tcp", ':', address);
    assert Endpoint(address, port) == ("tcp" + [':'] + address) + [':'] + digits;
    SplitAppend("tcp" + [':'] + address, ':', digits);
    var last := digits[|digits| - 1];
    assert last in digits;
    SignedDecimalHas(port, last);
    TrimSpaceKeeps(Endpoint(address, port));
  }

  lemma ColonFreeSplits(address: string)
    ensures |Split(address, ':')| == 1 <==> ':' !in address
    ensures ':' !in address ==> Split(address, ':') == [address]
  {
    if ':' in address {
      var a, b := SplitAtFirst(address, ':');
    } else {
      SplitClean(address, ':');
    }
  }

  // What the parser recovers from printed endpoints: the ports always, the
  // addresses exactly when they contain no colon.
  lemma ParseInvertsPrint(deviceName: string, dev: Device, publicIP: string, publicPort: int, privateIP: string)
    requires ToLower(Property(dev, "type")) in ["", "proxy"]
    requires Property(dev, "listen") == Endpoint(publicIP, publicPort) && SSHPort(publicPort)
    requires Property(dev, "connect") == Endpoint(privateIP, 22)
    ensures ParseSSHProxyDevice(deviceName, dev).Some?
    ensures ParseSSHProxyDevice(deviceName, dev).value.publicPort == publicPort
    ensures ParseSSHProxyDevice(deviceName, dev).value.destinationPort == 22
    ensures publicIP != "" ==>
              (ParseSSHProxyDevice(deviceName, dev).value.publicIP == publicIP <==> ':' !in publicIP)
    ensures publicIP == "" ==> ParseSSHProxyDevice(deviceName, dev).value.publicIP == "0.0.0.0"
    ensures ParseSSHProxyDevice(deviceName, dev).value.privateIP == privateIP <==> ':' !in privateIP
  {
    ParsedAs(deviceName, dev, publicIP, publicPort, privateIP);
    assert ':' !in "0.0.0.0";
  }

  lemma ParsedAs(deviceName: string, dev: Device, publicIP: string, publicPort: int, privateIP: string)
    requires ToLower(Property(dev, "type")) in ["", "proxy"]
    requires Property(dev, "listen") == Endpoint(publicIP, publicPort) && SSHPort(publicPort)
    requires Property(dev, "connect") == Endpoint(privateIP, 22)
    ensures ParseSSHProxyDevice(deviceName, dev) ==
              Some(DiscoveredProxy(deviceName, publicPort, if ':' !in publicIP && publicIP != "" then publicIP else "0.0.0.0",
                                   if ':' !in privateIP then privateIP else "", 22, "TCP"))
  {
    EndpointParts(publicIP, publicPort);
    EndpointParts(privateIP, 22);
    PartsParsed(deviceName, Split(Endpoint(publicIP, publicPort), ':'), Split(Endpoint(privateIP, 22), ':'),
                publicIP, publicPort, privateIP);
  }

  // Endpoint strings, split.
  ghost predicate PartsOf(parts: seq<string>, address: string, port: int) {
    |parts| >= 3 && parts[0] == "tcp" && Atoi(parts[|parts| - 1]) == Some(port) &&
    (|parts| == 3 <==> ':' !in address) && (|parts| == 3 ==> parts[1] == address)
  }

  lemma PartsParsed(
    deviceName: string, listen: seq<string>, connect: seq<string>, publicIP: string, publicPort: int, privateIP: string)
    requires PartsOf(listen, publicIP, publicPort) && PartsOf(connect, privateIP, 22) && SSHPort(publicPort)
    ensures ParseParts(deviceName, listen, connect) ==
              Some(DiscoveredProxy(deviceName, publicPort, if ':' !in publicIP && publicIP != "" then publicIP else "0.0.0.0",
                                   if ':' !in privateIP then privateIP else "", 22, "TCP"))
  {
    assert ToUpper("tcp") == "TCP";
  }

  // What the parser looks at: the first and the last part, the number of parts,
  // and the middle one of three.
  lemma EndpointParts(address: string, port: int)
    requires 0 <= port <= 65535
    ensures TrimSpace(Endpoint(address, port)) == Endpoint(address, port) != ""
    ensures PartsOf(Split(Endpoint(address, port), ':'), address, port)
  {
    EndpointSplits(address, port);
    ColonFreeSplits(address);
    AtoiInvertsSignedDecimal(port);
  }

  // The round trip from an SSH exposure through its printed device.
  lemma PrintParseRoundTrip(deviceName: string, dev: Device, e: Exposure)
    requires ToLower(Property(dev, "type")) in ["", "proxy"]
    requires Property(dev, "listen") == ListenString(e) && Property(dev, "connect") == ConnectString(e)
    requires SSHPort(e.publicPort) && e.internalPort == 22
    requires ':' !in e.publicIP && ':' !in e.internalIP
    ensures ParseSSHProxyDevice(deviceName, dev) ==
              Some(DiscoveredProxy(deviceName, e.publicPort, if e.publicIP == "" then "0.0.0.0" else e.publicIP,
                                   e.internalIP, 22, "TCP"))
  {
    var address := if e.publicIP == "" then "0.0.0.0" else e.publicIP;
    assert ':' !in "0.0.0.0";
    ParsedAs(deviceName, dev, address, e.publicPort, e.internalIP);
  }

  // Of all printed forwardings the parser takes exactly those from a port of the
  // range to port 22, on devices whose type is proxy or missing.
  lemma ParsesOnlySSH(deviceName: string, dev: Device, address: string, port: int, target: string, targetPort: int)
    requires Property(dev, "listen") == Endpoint(address, port) && Property(dev, "connect") == Endpoint(target, targetPort)
    requires 0 <= port <= 65535 && 0 <= targetPort <= 65535
    ensures ParseSSHProxyDevice(deviceName, dev).Some? <==>
              ToLower(Property(dev, "type")) in ["", "proxy"] && 22100 <= port <= 22200 && targetPort == 22
  {
    EndpointParts(address, port);
    EndpointParts(target, targetPort);
    PartsParseOnlySSH(deviceName, Split(Endpoint(address, port), ':'), Split(Endpoint(target, targetPort), ':'),
                      address, port, target, targetPort);
  }

  lemma PartsParseOnlySSH(
    deviceName: string, listen: seq<string>, connect: seq<string>, address: string, port: int, target: string, targetPort: int)
    requires PartsOf(listen, address, port) && PartsOf(connect, target, targetPort)
    ensures ParseParts(deviceName, listen, connect).Some? <==> 22100 <= port <= 22200 && targetPort == 22
  {
    assert ToUpper("tcp") == "TCP";
  }

  // Two endpoints print alike only when they are the same endpoint.
  lemma EndpointInjective(a: string, p: int, b: string, q: int)
    requires Endpoint(a, p) == Endpoint(b, q)
    ensures a == b && p == q
  {
    EndpointSplits(a, p);
    EndpointSplits(b, q);
    var s, t := Split(Endpoint(a, p), ':'), Split(Endpoint(b, q), ':');
    assert s[|s| - 1] == SignedDecimal(p) && t[|t| - 1] == SignedDecimal(q);
    SignedDecimalInjective(p, q);
    assert s[1..|s| - 1] == Split(a, ':') && t[1..|t| - 1] == Split(b, ':');
    SplitInjective(a, b, ':');
  }

  // ------------------------------------------------------------- application

  type DeviceTable = map<string, map<string, Device>>  // instance name, device name

  datatype Command =
    | DeviceAdd(inst: string, device: string, listen: string, connect: string)
    | DeviceSet(inst: string, device: string, listen: string, connect: string)
    | DeviceRemove(inst: string, device: string)

  // What the provider makes of one command by itself, None when it cannot carry it
  // out. Removing what is not there leaves things as they are.
  function Obeyed(table: DeviceTable, c: Command): Option<DeviceTable> {
    var known := c.inst in table && c.device in table[c.inst];
    match c
    case DeviceAdd(inst, device, listen, connect) =>
      if inst !in table || known then None
      else Some(PutDevice(table, inst, device, map["type" := "proxy", "listen" := listen, "connect" := connect, "nat" := "true"]))
    case DeviceSet(inst, device, listen, connect) =>
      if !known then None
      else Some(PutDevice(table, inst, device, table[inst][device]["listen" := listen]["connect" := connect]["nat" := "true"]))
    case DeviceRemove(inst, device) => Some(if known then table[inst := table[inst] - {device}] else table)
  }

  // One command after the other.
  function ObeyedInTurn(table: DeviceTable, commands: seq<Command>): Option<DeviceTable> {
    if commands == [] then Some(table)
    else match ObeyedInTurn(table, commands[..|commands| - 1])
      case None => None
      case Some(t) => Obeyed(t, commands[|commands| - 1])
  }

  lemma ObeyedOnce(table: DeviceTable, c: Command)
    ensures ObeyedInTurn(table, [c]) == Obeyed(table, c)
  {
    assert [c][..0] == [];
  }

  // The devices are what the issued commands make of them; a command that fails
  // does nothing.
  predicate CarriedOut(before: DeviceTable, after: DeviceTable, issued: seq<Command>, link: Link) {
    if link.commandOk then ObeyedInTurn(before, issued) == Some(after) else after == before
  }

  // A command on the exposure's own device that carries both of its endpoints.
  predicate ForwardsFor(c: Command, e: Exposure) {
    && (c.DeviceAdd? || c.DeviceSet?)
    && ResolveInstanceName(e) == Target(c.inst) && c.device == DeviceName(e.id)
    && c.listen == ListenString(e) && c.connect == ConnectString(e)
  }

  datatype ProxyError =
    | UnsupportedProtocol | NameRequired | OptionInjection | InstanceNotFound | QueryFailed | CommandFailed

  // Whether the provider's query and command channels work during a call.
  datatype Link = Link(queryOk: bool, commandOk: bool)

  datatype Target = Target(name: string) | Unresolved(error: ProxyError)

  function ResolveInstanceName(e: Exposure): Target {
    var name := if TrimSpace(e.workloadName) == "" then TrimSpace(e.workloadID) else TrimSpace(e.workloadName);
    if name == "" then Unresolved(NameRequired)
    else if HasPrefix(name, "-") then Unresolved(OptionInjection)
    else Target(name)
  }

  predicate ProxyTyped(dev: Device) { Property(dev, "type") in ["", "proxy"] }

  predicate ListensFor(dev: Device, e: Exposure) {
    Property(dev, "listen") == ListenString(e) || Property(dev, "listen") == ListenShorthand(e)
  }

  predicate Matches(dev: Device, e: Exposure) {
    ProxyTyped(dev) && ListensFor(dev, e) && Property(dev, "connect") == ConnectString(e)
  }

  predicate UpToDate(dev: Device, e: Exposure) { Matches(dev, e) && Property(dev, "nat") in ["true", ""] }

  function Configured(dev: Device, e: Exposure): Device {
    dev["listen" := ListenString(e)]["connect" := ConnectString(e)]["nat" := "true"]
  }

  function PutDevice(table: DeviceTable, inst: string, device: string, dev: Device): DeviceTable
    requires inst in table
  {
    table[inst := table[inst][device := dev]]
  }

  datatype Effect = Effect(table: DeviceTable, issued: seq<Command>, error: Option<ProxyError>)

  function ApplyEffect(table: DeviceTable, e: Exposure, link: Link): Effect {
    var target := ResolveInstanceName(e);
    var device := DeviceName(e.id);
    if e.protocol == UDP then Effect(table, [], Some(UnsupportedProtocol))
    else if target.Unresolved? then Effect(table, [], Some(target.error))
    else if !link.queryOk then Effect(table, [], Some(QueryFailed))
    else if target.name !in table then Effect(table, [], Some(InstanceNotFound))
    else
      var devices := table[target.name];
      if device in devices && UpToDate(devices[device], e) then Effect(table, [], None)
      else
        var known := device in devices;
        var command := if known then DeviceSet(target.name, device, ListenString(e), ConnectString(e))
                       else DeviceAdd(target.name, device, ListenString(e), ConnectString(e));
        var dev := Configured(if known then devices[device] else map["type" := "proxy"], e);
        if link.commandOk then Effect(PutDevice(table, target.name, device, dev), [command], None)
        else Effect(table, [command], Some(CommandFailed))
  }

  // A missing device or instance counts as removed.
  function RemoveEffect(table: DeviceTable, e: Exposure, link: Link): Effect {
    var target := ResolveInstanceName(e);
    var device := DeviceName(e.id);
    if target.Unresolved? then Effect(table, [], None)
    else if !link.commandOk then Effect(table, [DeviceRemove(target.name, device)], Some(CommandFailed))
    else if target.name !in table then Effect(table, [DeviceRemove(target.name, device)], None)
    else Effect(table[target.name := table[target.name] - {device}], [DeviceRemove(target.name, device)], None)
  }

  // Where the device is already as it must be.
  predicate InPlace(table: DeviceTable, e: Exposure) {
    DeviceOf(table, e).Some? &&
    var dev := DeviceOf(table, e).value;
    && Property(dev, "type") in ["", "proxy"]
    && Property(dev, "listen") in [ListenString(e), "tcp::" + SignedDecimal(e.publicPort)]
    && Property(dev, "connect") == ConnectString(e)
    && Property(dev, "nat") in ["", "true"]
  }

  // Applying is refused, without a command, for UDP, without a usable name, an
  // answer or an instance; otherwise one command is issued, unless the device is in
  // place; it is in place afterwards when the call succeeds and the device was
  // absent or of proxy type.
  lemma ApplyIsExact(table: DeviceTable, e: Exposure, link: Link)
    ensures var effect, target := ApplyEffect(table, e, link), ResolveInstanceName(e);
            if e.protocol == UDP || target.Unresolved? || !link.queryOk || target.name !in table
            then effect.error.Some? && effect.issued == []
            else if InPlace(table, e) then effect.error.None? && effect.issued == []
            else |effect.issued| == 1 && (effect.error.None? <==> link.commandOk)
    ensures ApplyEffect(table, e, link).error.None? && (DeviceOf(table, e).None? || ProxyTyped(DeviceOf(table, e).value)) ==>
              InPlace(ApplyEffect(table, e, link).table, e)
  {
    ShorthandIs(e);
  }

  lemma ShorthandIs(e: Exposure)
    ensures ListenShorthand(e) == "tcp::" + SignedDecimal(e.publicPort)
  {
    assert "tcp" + ":" + "" + ":" == "tcp::";
  }

  // The command names an instance by the workload's name, or by its id when that is
  // blank, trimmed, and never by something that looks like an option.
  lemma TargetIs(e: Exposure, name: string)
    requires name == TrimSpace(if TrimSpace(e.workloadName) == "" then e.workloadID else e.workloadName)
    ensures ResolveInstanceName(e).Target? <==> name != "" && name[0] != '-'
    ensures ResolveInstanceName(e).Target? ==> ResolveInstanceName(e).name == name
  {
  }

  // What applying and removing do to the devices they do by their commands, and
  // every command that forwards carries the strings that the parser reads back.
  lemma EffectsAreCarriedOut(table: DeviceTable, e: Exposure, link: Link)
    ensures var effect := ApplyEffect(table, e, link);
            CarriedOut(table, effect.table, effect.issued, link) && (forall c :: c in effect.issued ==> ForwardsFor(c, e))
    ensures var effect := RemoveEffect(table, e, link);
            CarriedOut(table, effect.table, effect.issued, link) &&
            (forall c :: c in effect.issued ==> ResolveInstanceName(e) == Target(c.inst) && c == DeviceRemove(c.inst, DeviceName(e.id)))
  {
    forall effect | effect in {ApplyEffect(table, e, link), RemoveEffect(table, e, link)} && effect.issued != []
      ensures CarriedOut(table, effect.table, effect.issued, link) {
      ObeyedOnce(table, effect.issued[0]);
      var c := effect.issued[0];
      if c.DeviceAdd? {
        assert Configured(map["type" := "proxy"], e) ==
               map["type" := "proxy", "listen" := ListenString(e), "connect" := ConnectString(e), "nat" := "true"];
      } else if c.DeviceRemove? && c.inst in table && c.device !in table[c.inst] {
        assert table[c.inst] - {c.device} == table[c.inst];
        assert table[c.inst := table[c.inst]] == table;
      }
    }
  }

  function DeviceOf(table: DeviceTable, e: Exposure): Option<Device> {
    var target := ResolveInstanceName(e);
    if target.Target? && target.name in table && DeviceName(e.id) in table[target.name]
    then Some(table[target.name][DeviceName(e.id)]) else None
  }

  // The registry of exposures and its file, and the devices behind the driver;
  // None without a driver.
  datatype Edge = Edge(state: ManagerState, devices: Option<DeviceTable>)

  // Applying a registered exposure: its device, its states, and the save.
  function AfterApplying(x: Edge, id: string, link: Link, saved: bool): Edge {
    if id !in x.state.registry || x.devices.None? then x
    else
      var effect := ApplyEffect(x.devices.value, x.state.registry[id].(desiredState := APPLIED), link);
      Edge(AfterApply(x.state, id, effect.error.None?, saved), Some(effect.table))
  }

  // What GetExposure reports: None on a provider error.
  function Observe(table: DeviceTable, e: Exposure, link: Link): Option<bool> {
    var target := ResolveInstanceName(e);
    if target.Unresolved? then Some(false)
    else if !link.queryOk || target.name !in table then None
    else Some(DeviceOf(table, e).Some? && Matches(DeviceOf(table, e).value, e))
  }

  class IncusProxyDriver {
    var table: DeviceTable
    var commands: seq<Command>  // the changing commands issued so far

    constructor (table: DeviceTable)
      ensures this.table == table && commands == []
    {
      this.table, commands := table, [];
    }

    method CreateExposure(e: Exposure, link: Link) returns (error: Option<ProxyError>)
      modifies this
      ensures old(commands) <= commands
      ensures Effect(table, commands[|old(commands)|..], error) == ApplyEffect(old(table), e, link)
      // the devices change by the commands alone, and these carry the exposure's endpoints
      ensures CarriedOut(old(table), table, commands[|old(commands)|..], link)
      ensures forall c :: c in commands[|old(commands)|..] ==> ForwardsFor(c, e)
    {
      EffectsAreCarriedOut(table, e, link);
      if e.protocol == UDP {
        return Some(UnsupportedProtocol);
      }
      var target := ResolveInstanceName(e);
      if target.Unresolved? {
        return Some(target.error);
      }
      var device, listen, connect := DeviceName(e.id), ListenString(e), ConnectString(e);
      if !link.queryOk {
        return Some(QueryFailed);
      }
      if target.name !in table {
        return Some(InstanceNotFound);
      }
      if device in table[target.name] {
        var existing := table[target.name][device];
        if UpToDate(existing, e) {
          return None;
        }
        commands := commands + [DeviceSet(target.name, device, listen, connect)];
        if !link.commandOk {
          return Some(CommandFailed);
        }
        table := PutDevice(table, target.name, device, Configured(existing, e));
        return None;
      }
      commands := commands + [DeviceAdd(target.name, device, listen, connect)];
      if !link.commandOk {
        return Some(CommandFailed);
      }
      table := PutDevice(table, target.name, device, Configured(map["type" := "proxy"], e));
      return None;
    }

    method DeleteExposure(e: Exposure, link: Link) returns (error: Option<ProxyError>)
      modifies this
      ensures old(commands) <= commands
      ensures Effect(table, commands[|old(commands)|..], error) == RemoveEffect(old(table), e, link)
      ensures CarriedOut(old(table), table, commands[|old(commands)|..], link)
      ensures forall c :: c in commands[|old(commands)|..] ==>
                ResolveInstanceName(e) == Target(c.inst) && c == DeviceRemove(c.inst, DeviceName(e.id))
    {
      EffectsAreCarriedOut(table, e, link);
      var target := ResolveInstanceName(e);
      if target.Unresolved? {
        return None;
      }
      var device := DeviceName(e.id);
      commands := commands + [DeviceRemove(target.name, device)];
      if !link.commandOk {
        return Some(CommandFailed);
      }
      if target.name in table {
        table := table[target.name := table[target.name] - {device}];
      }
      return None;
    }

    method GetExposure(e: Exposure, link: Link) returns (active: Option<bool>)
      ensures active == Observe(table, e, link)
    {
      var target := ResolveInstanceName(e);
      if target.Unresolved? {
        return Some(false);
      }
      if !link.queryOk || target.name !in table {
        return None;
      }
      var device := DeviceName(e.id);
      if device !in table[target.name] {
        return Some(false);
      }
      return Some(Matches(table[target.name][device], e));
    }
  }

  // -------------------------------------------------------------- main lemmas

  // After a successful apply the driver observes the exposure as active,
  // exactly when the device was absent or already of proxy type.
  lemma ApplyThenObserve(table: DeviceTable, e: Exposure, link: Link, later: Link)
    requires ApplyEffect(table, e, link).error.None? && later.queryOk
    ensures Observe(ApplyEffect(table, e, link).table, e, later) ==
              Some(DeviceOf(table, e).None? || ProxyTyped(DeviceOf(table, e).value))
  {
    var name := ResolveInstanceName(e).name;
    assert DeviceName(e.id) in ApplyEffect(table, e, link).table[name];
  }

  // A second apply finds nothing to do: no command is issued and no device changes.
  lemma SecondApplyIsSilent(table: DeviceTable, e: Exposure, link: Link, later: Link)
    requires ApplyEffect(table, e, link).error.None? && later.queryOk
    requires DeviceOf(table, e).None? || ProxyTyped(DeviceOf(table, e).value)
    ensures var after := ApplyEffect(table, e, link).table;
            ApplyEffect(after, e, later) == Effect(after, [], None)
  {
    var name := ResolveInstanceName(e).name;
    assert DeviceName(e.id) in ApplyEffect(table, e, link).table[name];
  }

  // Deleting makes the exposure inactive, whatever the device was: every query
  // that is answered says so.
  lemma DeleteThenObserve(table: DeviceTable, e: Exposure, link: Link, later: Link)
    requires RemoveEffect(table, e, link).error.None?
    ensures Observe(RemoveEffect(table, e, link).table, e, later) ==
              (if ResolveInstanceName(e).Target? && (!later.queryOk || ResolveInstanceName(e).name !in table) then None
               else Some(false))
    ensures DeviceOf(RemoveEffect(table, e, link).table, e).None?
  {
  }

  // Apply and delete change one device of one instance at most.
  lemma OtherDevicesUntouched(table: DeviceTable, e: Exposure, link: Link, inst: string, device: string)
    requires ResolveInstanceName(e) != Target(inst) || DeviceName(e.id) != device
    requires inst in table
    ensures forall after :: after in {ApplyEffect(table, e, link).table, RemoveEffect(table, e, link).table} ==>
              inst in after && (device in after[inst] <==> device in table[inst]) &&
              (device in table[inst] ==> after[inst][device] == table[inst][device])
  {
  }

  // Ids free of slashes and spaces never share a device name.
  lemma DeviceNamesDistinct(a: string, b: string)
    requires '/' !in a && ' ' !in a && '/' !in b && ' ' !in b
    ensures DeviceName(a) == DeviceName(b) <==> a == b
  {
    assert forall s: string :: '/' !in s && ' ' !in s ==> Replace(Replace(s, '/', '-'), ' ', '-') == s;
    assert DeviceName(a)[|"mystic-exp-"|..] == a;
    assert DeviceName(b)[|"mystic-exp-"|..] == b;
  }

  // Applying b keeps an active exposure a active exactly when they use different
  // devices, or ask for the same endpoints, or b finds nothing to change.
  lemma ApplyingAnotherKeepsActive(table: DeviceTable, a: Exposure, b: Exposure, link: Link)
    requires Observe(table, a, link) == Some(true)
    requires ApplyEffect(table, b, link).error.None?
    ensures Observe(ApplyEffect(table, b, link).table, a, link) == Some(true) <==>
              (ResolveInstanceName(a) != ResolveInstanceName(b) || DeviceName(a.id) != DeviceName(b.id) ||
               (ListenString(a) == ListenString(b) && ConnectString(a) == ConnectString(b)) ||
               NothingToChange(table, a, b))
  {
    var after := ApplyEffect(table, b, link).table;
    if ResolveInstanceName(a) != ResolveInstanceName(b) || DeviceName(a.id) != DeviceName(b.id) {
      OtherDevicesUntouched(table, b, link, ResolveInstanceName(a).name, DeviceName(a.id));
      assert DeviceOf(after, a) == DeviceOf(table, a);
    } else if !NothingToChange(table, a, b) {
      assert DeviceOf(after, a) == Some(Configured(DeviceOf(table, a).value, b));
      ReconfiguredMatchesIff(DeviceOf(table, a).value, a, b);
    }
  }

  lemma ReconfiguredMatchesIff(dev: Device, a: Exposure, b: Exposure)
    requires Matches(dev, a)
    ensures Matches(Configured(dev, b), a) <==> ListenString(a) == ListenString(b) && ConnectString(a) == ConnectString(b)
  {
    ListenFormsDiffer(b, a);
  }

  // Two exposures whose ids differ only in a slash share a device, so applying
  // the second turns the first inactive.
  lemma ApplyingAnotherCanDeactivate() returns (table: DeviceTable, a: Exposure, b: Exposure, link: Link)
    ensures a.id != b.id && a.publicPort != b.publicPort
    ensures Observe(table, a, link) == Some(true) && ApplyEffect(table, b, link).error.None?
    ensures Observe(ApplyEffect(table, b, link).table, a, link) == Some(false)
  {
    a := Exposure("a/b", "w", "web", "", "", "10.0.0.1", 8080, "10.1.0.1", 80, TCP, APPLIED, APPLIED, InSync, "");
    b := a.(id := "a-b", publicPort := 9090);
    link := Link(true, true);
    SharedName();
    PlainName(a);
    PlainName(b);
    table := SharedDeviceDeactivates(a, b, "web", link);
  }

  lemma PlainName(e: Exposure)
    requires e.workloadName == "web"
    ensures ResolveInstanceName(e) == Target("web")
  {
  }

  // Two exposures of one instance with one device and different ports.
  lemma SharedDeviceDeactivates(a: Exposure, b: Exposure, name: string, link: Link) returns (table: DeviceTable)
    requires ResolveInstanceName(a) == ResolveInstanceName(b) == Target(name) && DeviceName(a.id) == DeviceName(b.id)
    requires a.publicPort != b.publicPort && a.protocol != UDP && b.protocol != UDP && link == Link(true, true)
    ensures Observe(table, a, link) == Some(true) && ApplyEffect(table, b, link).error.None?
    ensures Observe(ApplyEffect(table, b, link).table, a, link) == Some(false)
  {
    table := ApplyEffect(map[name := map[]], a, link).table;
    ApplyThenObserve(map[name := map[]], a, link, link);
    OtherPortListensElsewhere(a, b);
    OtherPortListensElsewhere(b, a);
    assert DeviceOf(table, a) == Some(Configured(map["type" := "proxy"], a));
    ApplyingAnotherKeepsActive(table, a, b, link);
  }

  lemma OtherPortListensElsewhere(a: Exposure, b: Exposure)
    requires a.publicPort != b.publicPort
    ensures ListenString(b) != ListenString(a) && ListenString(b) != ListenShorthand(a)
  {
    ListenFormsDiffer(b, a);
    if ListenString(a) == ListenString(b) {
      EndpointInjective(if a.publicIP == "" then "0.0.0.0" else a.publicIP, a.publicPort,
                        if b.publicIP == "" then "0.0.0.0" else b.publicIP, b.publicPort);
    }
  }

  lemma SharedName()
    ensures DeviceName("a/b") == DeviceName("a-b")
  {
    assert Replace("a/b", '/', '-') == "a-b" == Replace("a-b", '/', '-');
  }

  // The device of a already is what b asks for.
  predicate NothingToChange(table: DeviceTable, a: Exposure, b: Exposure) {
    DeviceOf(table, a).Some? && UpToDate(DeviceOf(table, a).value, b)
  }

  lemma ListenFormsDiffer(a: Exposure, b: Exposure)
    ensures ListenString(a) != ListenShorthand(b)
  {
    var address := if a.publicIP == "" then "0.0.0.0" else a.publicIP;
    if ListenString(a) == ListenShorthand(b) {
      EndpointInjective(address, a.publicPort, "", b.publicPort);
    }
  }

  // Every SSH exposure that was applied to an absent or proxy-typed device is
  // found again by the device parser, with its own port.
  lemma AppliedDeviceIsDiscovered(table: DeviceTable, e: Exposure, link: Link)
    requires ApplyEffect(table, e, link).error.None?
    requires DeviceOf(table, e).None? || ProxyTyped(DeviceOf(table, e).value)
    requires SSHPort(e.publicPort) && e.internalPort == 22
    ensures DeviceOf(ApplyEffect(table, e, link).table, e).Some?
    ensures var found := ParseSSHProxyDevice(DeviceName(e.id), DeviceOf(ApplyEffect(table, e, link).table, e).value);
            found.Some? && found.value.publicPort == e.publicPort
  {
    var name := ResolveInstanceName(e).name;
    var after := ApplyEffect(table, e, link).table;
    assert DeviceName(e.id) in after[name];
    var dev := after[name][DeviceName(e.id)];
    assert ToLower(Property(dev, "type")) in ["", "proxy"] by {
      assert ToLower("proxy") == "proxy" && ToLower("") == "";
    }
    var address := if e.publicIP == "" then "0.0.0.0" else e.publicIP;
    if Property(dev, "listen") == ListenString(e) {
      ParseInvertsPrint(DeviceName(e.id), dev, address, e.publicPort, e.internalIP);
    } else {
      ParseInvertsPrint(DeviceName(e.id), dev, "", e.publicPort, e.internalIP);
    }
  }
}
