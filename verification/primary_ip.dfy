// Choosing the primary address of an instance from unordered device and
// network tables.
module PrimaryIPs {
  import opened Text
  import opened Instances

  datatype Address = Address(address: string, family: string, scope: string)

  datatype RawInstance = RawInstance(
    expandedDevices: map<string, Device>, devices: map<string, Device>, network: map<string, seq<Address>>)

  datatype Candidate = Candidate(iface: string, ip: string, score: int)

  // -------------------------------------------------------------- the choice

  function InterfaceOf(devices: map<string, Device>, key: string): string
    requires key in devices
  {
    if Property(devices[key], "name") == "" then key else Property(devices[key], "name")
  }

  predicate IsNic(dev: Device) { Property(dev, "type") == "nic" || Property(dev, "type") == "" }

  predicate Configures(devices: map<string, Device>, key: string, iface: string) {
    key in devices && IsNic(devices[key]) && InterfaceOf(devices, key) == iface
  }

  predicate Networked(dev: Device) { Property(dev, "network") != "" || Property(dev, "parent") != "" }

  ghost predicate ConfiguredAmong(devices: map<string, Device>, keys: set<string>, iface: string) {
    exists key :: key in keys && Configures(devices, key, iface)
  }

  ghost predicate NetworkedAmong(devices: map<string, Device>, keys: set<string>, iface: string) {
    exists key :: key in keys && Configures(devices, key, iface) && Networked(devices[key])
  }

  ghost predicate ConfiguredIn(devices: map<string, Device>, iface: string) {
    ConfiguredAmong(devices, devices.Keys, iface)
  }

  ghost predicate NetworkedIn(devices: map<string, Device>, iface: string) {
    NetworkedAmong(devices, devices.Keys, iface)
  }

  predicate IsStandardIface(name: string) {
    var lower := ToLower(name);
    HasPrefix(lower, "eth") || HasPrefix(lower, "en") || HasPrefix(lower, "wl") || HasPrefix(lower, "net")
  }

  predicate IsInternalBridge(name: string) {
    var lower := ToLower(name);
    lower == "docker0" || HasPrefix(lower, "docker") || HasPrefix(lower, "cni") || HasPrefix(lower, "flannel") ||
    HasPrefix(lower, "br-") || HasPrefix(lower, "veth") || HasPrefix(lower, "kube") || HasPrefix(lower, "virbr") ||
    HasPrefix(lower, "dummy")
  }

  // networked is None for an interface that no device configures.
  function Score(iface: string, networked: Option<bool>): int {
    if networked == Some(true) then 100
    else if networked == Some(false) then 80
    else if IsStandardIface(iface) && !IsInternalBridge(iface) then 60
    else if !IsInternalBridge(iface) then 40
    else 20
  }

  ghost function NicOf(item: RawInstance, iface: string): Option<bool> {
    if ConfiguredIn(item.expandedDevices, iface) || ConfiguredIn(item.devices, iface)
    then Some(NetworkedIn(item.expandedDevices, iface) || NetworkedIn(item.devices, iface))
    else None
  }

  predicate Usable(a: Address) { a.family == "inet" && a.scope != "local" && !HasPrefix(a.address, "127.") }

  ghost predicate Offers(item: RawInstance, iface: string, ip: string) {
    iface in item.network && iface != "lo" && exists a :: a in item.network[iface] && Usable(a) && a.address == ip
  }

  ghost predicate IsCandidate(item: RawInstance, c: Candidate) {
    Offers(item, c.iface, c.ip) && c.score == Score(c.iface, NicOf(item, c.iface))
  }

  // Higher score, then smaller name, then smaller address.
  predicate Precedes(c: Candidate, d: Candidate) {
    c.score > d.score ||
    (c.score == d.score && (Before(c.iface, d.iface) || (c.iface == d.iface && Before(c.ip, d.ip))))
  }

  ghost predicate Best(item: RawInstance, c: Candidate) {
    IsCandidate(item, c) && forall d :: IsCandidate(item, d) ==> !Precedes(d, c)
  }

  // ip is what the choice must return: the best candidate's address, or nothing.
  ghost predicate IsPrimary(item: RawInstance, ip: string) {
    if exists c :: IsCandidate(item, c) then exists c :: Best(item, c) && c.ip == ip else ip == ""
  }

  lemma PrecedesTotal(c: Candidate, d: Candidate)
    ensures Precedes(c, d) || c == d || Precedes(d, c)
    ensures !(Precedes(c, d) && Precedes(d, c)) && !Precedes(c, c)
  {
    BeforeTrichotomy(c.iface, d.iface);
    BeforeTrichotomy(c.ip, d.ip);
    BeforeTrichotomy(c.iface, c.iface);
    BeforeTrichotomy(c.ip, c.ip);
  }

  lemma PrecedesTransitive(b: Candidate, c: Candidate, d: Candidate)
    requires Precedes(b, c) && Precedes(c, d)
    ensures Precedes(b, d)
  {
    if b.score == c.score && c.score == d.score {
      if Before(b.iface, c.iface) && Before(c.iface, d.iface) {
        BeforeTransitive(b.iface, c.iface, d.iface);
      } else if b.iface == c.iface && c.iface == d.iface {
        BeforeTransitive(b.ip, c.ip, d.ip);
      }
    }
  }

  // The tables determine the answer: whatever order the devices, interfaces
  // and addresses are visited in, any answer that is primary is the same one.
  lemma PrimaryDetermined(item: RawInstance, p: string, q: string)
    requires IsPrimary(item, p) && IsPrimary(item, q)
    ensures p == q
  {
    if exists c :: IsCandidate(item, c) {
      var c :| Best(item, c) && c.ip == p;
      var d :| Best(item, d) && d.ip == q;
      PrecedesTotal(c, d);
    }
  }

  // The address comes from an interface that a device of the instance connects to a
  // network, where one has a usable address; else from one that a device configures;
  // else from one with a standard name; and from an inner bridge only where
  // nothing else has one.
  lemma PrimaryPrefers(item: RawInstance, c: Candidate, d: Candidate)
    requires Best(item, c) && IsCandidate(item, d)
    ensures NetworkedIn(item.expandedDevices, d.iface) || NetworkedIn(item.devices, d.iface) ==>
              NetworkedIn(item.expandedDevices, c.iface) || NetworkedIn(item.devices, c.iface)
    ensures ConfiguredIn(item.expandedDevices, d.iface) || ConfiguredIn(item.devices, d.iface) ==>
              ConfiguredIn(item.expandedDevices, c.iface) || ConfiguredIn(item.devices, c.iface)
    ensures NicOf(item, c.iface).None? && !IsInternalBridge(d.iface) ==> !IsInternalBridge(c.iface)
    ensures NicOf(item, c.iface).None? && IsStandardIface(d.iface) && !IsInternalBridge(d.iface) ==> IsStandardIface(c.iface)
  {
    assert !Precedes(d, c);
    NetworkedIsConfigured(item.expandedDevices, d.iface);
    NetworkedIsConfigured(item.devices, d.iface);
  }

  lemma NetworkedIsConfigured(devices: map<string, Device>, iface: string)
    ensures NetworkedIn(devices, iface) ==> ConfiguredIn(devices, iface)
  {
  }

  // So the bridge of a container engine inside the instance never comes before its
  // network card.
  lemma DockerNeverFirst(item: RawInstance, c: Candidate, d: Candidate)
    requires Best(item, c) && IsCandidate(item, d) && d.iface == "enp5s0"
    requires NicOf(item, "docker0").None?
    ensures c.iface != "docker0"
  {
    PrimaryPrefers(item, c, d);
    BridgesByName();
  }

  lemma BridgesByName()
    ensures IsInternalBridge("docker0") && !IsInternalBridge("enp5s0")
  {
    assert ToLower("docker0") == "docker0";
    assert ToLower("enp5s0")[0] == 'e';
  }

  // ----------------------------------------------------------------- sorting

  ghost predicate Sorted(s: seq<Candidate>) {
    forall i, j :: 0 <= i < j < |s| ==> !Precedes(s[j], s[i])
  }

  function Insert(s: seq<Candidate>, c: Candidate): (r: seq<Candidate>)
    ensures multiset(r) == multiset(s) + multiset{c}
  {
    if s == [] then [c]
    else if Precedes(c, s[0]) then [c] + s
    else
      assert s == [s[0]] + s[1..];
      [s[0]] + Insert(s[1..], c)
  }

  lemma {:induction false} InsertSorted(s: seq<Candidate>, c: Candidate)
    requires Sorted(s)
    ensures Sorted(Insert(s, c))
  {
    if s != [] {
      if Precedes(c, s[0]) {
        forall j | 0 <= j < |s| ensures !Precedes(s[j], c) {
          PrecedesTotal(s[j], c);
          if Precedes(s[j], c) {
            PrecedesTransitive(s[j], c, s[0]);
          }
        }
      } else {
        InsertSorted(s[1..], c);
        var rest := Insert(s[1..], c);
        forall j | 0 <= j < |rest| ensures !Precedes(rest[j], s[0]) {
          assert rest[j] in multiset(rest);
          assert rest[j] in multiset(s[1..]) + multiset{c};
          if rest[j] != c {
            assert rest[j] in s[1..];
          }
        }
      }
    }
  }

  // The library sort.
  function SortByPriority(cs: seq<Candidate>): (r: seq<Candidate>)
    ensures multiset(r) == multiset(cs)
  {
    if cs == [] then []
    else
      assert cs == cs[..|cs| - 1] + [cs[|cs| - 1]];
      Insert(SortByPriority(cs[..|cs| - 1]), cs[|cs| - 1])
  }

  lemma {:induction false} SortByPrioritySorts(cs: seq<Candidate>)
    ensures Sorted(SortByPriority(cs))
  {
    if cs != [] {
      SortByPrioritySorts(cs[..|cs| - 1]);
      InsertSorted(SortByPriority(cs[..|cs| - 1]), cs[|cs| - 1]);
    }
  }

  // The head of the sorted list precedes all others.
  lemma SortedHead(cs: seq<Candidate>)
    requires cs != []
    ensures SortByPriority(cs) != [] && SortByPriority(cs)[0] in cs
    ensures forall d :: d in cs ==> !Precedes(d, SortByPriority(cs)[0])
  {
    var r := SortByPriority(cs);
    SortByPrioritySorts(cs);
    assert cs[0] in multiset(r);
    assert r[0] in multiset(cs);
    forall d | d in cs ensures !Precedes(d, r[0]) {
      assert d in multiset(r);
      var j :| 0 <= j < |r| && r[j] == d;
      PrecedesTotal(r[0], r[0]);
    }
  }

  // ------------------------------------------------------------ the procedure

  // Folds one device table, in any order, into the interface table.
  method CheckDeviceMap(nics: map<string, bool>, devices: map<string, Device>) returns (after: map<string, bool>)
    ensures forall i :: i in after <==> i in nics || ConfiguredIn(devices, i)
    ensures forall i :: i in after ==> (after[i] <==> (i in nics && nics[i]) || NetworkedIn(devices, i))
  {
    after := nics;
    var left, done := devices.Keys, {};
    while left != {}
      invariant left + done == devices.Keys
      invariant forall i :: i in after <==> i in nics || ConfiguredAmong(devices, done, i)
      invariant forall i :: i in after ==> (after[i] <==> (i in nics && nics[i]) || NetworkedAmong(devices, done, i))
      decreases left
    {
      var key :| key in left;
      forall i {
        AmongStep(devices, done, key, i);
      }
      left, done := left - {key}, done + {key};
      after := CheckDevice(after, devices, key);
    }
  }

  method CheckDevice(nics: map<string, bool>, devices: map<string, Device>, key: string) returns (after: map<string, bool>)
    requires key in devices
    ensures forall i :: i in after <==> i in nics || Configures(devices, key, i)
    ensures forall i :: i in after ==>
              (after[i] <==> (i in nics && nics[i]) || (Configures(devices, key, i) && Networked(devices[key])))
  {
    after := nics;
    if IsNic(devices[key]) {
      var iface := InterfaceOf(devices, key);
      after := after[iface := (iface in after && after[iface]) || Networked(devices[key])];
    }
  }

  lemma AmongStep(devices: map<string, Device>, done: set<string>, key: string, iface: string)
    requires key in devices
    ensures ConfiguredAmong(devices, done + {key}, iface) <==>
              ConfiguredAmong(devices, done, iface) || Configures(devices, key, iface)
    ensures NetworkedAmong(devices, done + {key}, iface) <==>
              NetworkedAmong(devices, done, iface) || (Configures(devices, key, iface) && Networked(devices[key]))
  {
    if Configures(devices, key, iface) {
      assert key in done + {key};
    }
  }

  method ExtractPrimaryIP(item: RawInstance) returns (ip: string)
    ensures IsPrimary(item, ip)
  {
    var nics := CheckDeviceMap(map[], item.expandedDevices);
    nics := CheckDeviceMap(nics, item.devices);
    assert forall i :: NicOf(item, i) == if i in nics then Some(nics[i]) else None;
    var candidates := CollectCandidates(item, nics);
    if candidates == [] {
      assert !exists c :: IsCandidate(item, c);
      return "";
    }
    assert IsCandidate(item, candidates[0]);
    SortedHead(candidates);
    var best := SortByPriority(candidates)[0];
    assert Best(item, best);
    return best.ip;
  }

  method CollectCandidates(item: RawInstance, nics: map<string, bool>) returns (cs: seq<Candidate>)
    requires forall i :: NicOf(item, i) == if i in nics then Some(nics[i]) else None
    ensures forall c :: c in cs <==> IsCandidate(item, c)
  {
    cs := [];
    var left := item.network.Keys;
    while left != {}
      invariant left <= item.network.Keys
      invariant forall c :: c in cs <==> IsCandidate(item, c) && c.iface !in left
    {
      var iface :| iface in left;
      left := left - {iface};
      if iface != "lo" {
        var score := Score(iface, if iface in nics then Some(nics[iface]) else None);
        var found := CollectAddresses(iface, item.network[iface], score);
        cs := cs + found;
      }
    }
  }

  method CollectAddresses(iface: string, addresses: seq<Address>, score: int) returns (cs: seq<Candidate>)
    ensures forall c :: c in cs <==>
              c.iface == iface && c.score == score && exists a :: a in addresses && Usable(a) && a.address == c.ip
  {
    cs := [];
    for k := 0 to |addresses|
      invariant forall c :: c in cs <==>
                  c.iface == iface && c.score == score && exists a :: a in addresses[..k] && Usable(a) && a.address == c.ip
    {
      var a := addresses[k];
      assert addresses[..k + 1] == addresses[..k] + [a];
      if Usable(a) {
        cs := cs + [Candidate(iface, a.address, score)];
      }
    }
    assert addresses[..|addresses|] == addresses;
  }
}
