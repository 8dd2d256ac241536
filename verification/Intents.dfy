/** A request for a whole domain, and the checks it must pass. */
module Intents {
  import opened Wrappers
  import opened Text
  import opened Journal
  import opened ConfigModel

  datatype Topology = StackSingleManagementIp | MlagDualManagementIp | SmallFabric

  datatype Endpoint = Endpoint(id: DeviceId, host: string, port: u16, secretRef: string)

  datatype Member = Member(id: DeviceId, endpoint: DeviceId)

  /** A part of the request that is meant for one switch member. */
  datatype On<T> = On(device: DeviceId, item: T)

  datatype Peer = Peer(vrf: string, address: string)

  datatype Intent = Intent(
    domainId: string,
    topology: Topology,
    endpoints: seq<Endpoint>,
    members: seq<Member>,
    vlans: seq<VlanConfig>,
    interfaces: seq<On<InterfaceConfig>>,
    acls: seq<AclConfig>,
    bindings: seq<On<AclBinding>>,
    deleteVlans: seq<u16>,
    deleteInterfaces: seq<On<string>>,
    deleteAcls: seq<u16>,
    deleteBindings: seq<On<AclBinding>>,
    processes: seq<On<BgpProcess>>,
    neighbors: seq<On<BgpNeighbor>>,
    deleteProcesses: seq<On<string>>,
    deleteNeighbors: seq<On<Peer>>)

  predicate NotBlank(s: string) { Trim(s) != "" }

  predicate IsIdentifier(s: string) {
    s != "" && forall c :: c in s ==> 'a' <= c <= 'z' || 'A' <= c <= 'Z' || '0' <= c <= '9' || c == '-' || c == '_'
  }

  ghost predicate AllOk<T>(items: seq<T>, ok: T -> bool) {
    forall n :: 0 <= n < |items| ==> ok(items[n])
  }

  ghost predicate Distinct<T, K>(items: seq<T>, key: T -> K) {
    forall m, n :: 0 <= m < n < |items| ==> key(items[m]) != key(items[n])
  }

  // ---- Keys under which the parts of a request must differ ----

  function EndpointId(e: Endpoint): DeviceId { e.id }
  function MemberId(m: Member): DeviceId { m.id }
  function VlanId(v: VlanConfig): u16 { v.vlanId }
  function AclId(a: AclConfig): u16 { a.aclId }
  function Itself(id: u16): u16 { id }
  function PortKey(p: On<InterfaceConfig>): On<string> { On(p.device, p.item.name) }
  function PortDeleteKey(p: On<string>): On<string> { p }
  function BindKey(b: On<AclBinding>): On<string> { On(b.device, BindingKeyOf(b.item)) }
  function ProcessId(p: On<BgpProcess>): On<string> { On(p.device, Trim(p.item.vrf)) }
  function ProcessDeleteId(p: On<string>): On<string> { On(p.device, Trim(p.item)) }
  function NeighborId(n: On<BgpNeighbor>): On<Peer> { On(n.device, Peer(Trim(n.item.vrf), Trim(n.item.address))) }
  function NeighborDeleteId(n: On<Peer>): On<Peer> { On(n.device, Peer(Trim(n.item.vrf), Trim(n.item.address))) }

  // ---- The check of each part ----

  predicate TopologyOk(t: Topology, endpoints: nat) {
    match t
    case StackSingleManagementIp => endpoints == 1
    case MlagDualManagementIp => endpoints == 2
    case SmallFabric => endpoints >= 2
  }

  predicate EndpointOk(e: Endpoint) {
    IsIdentifier(e.id) && NotBlank(e.host) && NotBlank(e.secretRef) && e.port != 0
  }

  predicate MemberOk(endpoints: set<DeviceId>, m: Member) {
    IsIdentifier(m.id) && IsIdentifier(m.endpoint) && m.endpoint in endpoints
  }

  predicate VlanIdOk(id: u16) { 1 <= id <= 4094 }

  predicate VlanOk(v: VlanConfig) { VlanIdOk(v.vlanId) }

  predicate ModeOk(vlans: set<u16>, m: PortMode) {
    match m
    case Access(v) => v in vlans
    case Trunk(native, allowed) =>
      && !(allowed == [] && native.None?) && (native.Some? ==> native.value in vlans)
      && (forall n :: 0 <= n < |allowed| ==> allowed[n] in vlans)
      && (forall m, n :: 0 <= m < n < |allowed| ==> allowed[m] != allowed[n])
  }

  predicate PortOk(devices: set<DeviceId>, vlans: set<u16>, p: On<InterfaceConfig>) {
    NotBlank(p.item.name) && p.device in devices && ModeOk(vlans, p.item.mode)
  }

  predicate PortDeleteOk(devices: set<DeviceId>, upserts: set<On<string>>, p: On<string>) {
    NotBlank(p.item) && p.device in devices && p !in upserts
  }

  predicate AclIdOk(id: u16) { 2000 <= id <= 3999 }

  predicate AclIdFitsKind(id: u16, kind: AclKind) {
    if kind.AdvancedIpv4? then 3000 <= id <= 3999 else 2000 <= id <= 2999
  }

  predicate AddressOk(e: Option<AclEndpoint>) {
    e.Some? ==> IsIpv4(e.value.address) && IsIpv4(e.value.wildcard)
  }

  predicate RuleOk(kind: AclKind, r: AclRule) {
    && (r.sourcePort.Some? || r.destinationPort.Some? ==> r.protocol.Tcp? || r.protocol.Udp?)
    && r.sourcePort != Some(0) && r.destinationPort != Some(0)
    && (kind.BasicIpv4? ==> r.protocol.Ip? && r.destination.None? && r.sourcePort.None? && r.destinationPort.None?)
    && AddressOk(r.source) && AddressOk(r.destination)
  }

  predicate AclOk(a: AclConfig) {
    && AclIdFitsKind(a.aclId, a.kind)
    && (forall n :: 0 <= n < |a.rules| ==> RuleOk(a.kind, a.rules[n]))
    && (forall m, n :: 0 <= m < n < |a.rules| ==> a.rules[m].sequence != a.rules[n].sequence)
  }

  predicate BindingOk(devices: set<DeviceId>, acls: set<u16>, b: On<AclBinding>) {
    NotBlank(b.item.interfaceName) && b.device in devices && b.item.aclId in acls
  }

  predicate BindingDeleteOk(devices: set<DeviceId>, upserts: set<On<string>>, b: On<AclBinding>) {
    NotBlank(b.item.interfaceName) && b.device in devices && AclIdOk(b.item.aclId) && BindKey(b) !in upserts
  }

  predicate ProcessOk(devices: set<DeviceId>, p: On<BgpProcess>) {
    && IsIdentifier(p.device) && p.device in devices && NotBlank(p.item.vrf) && p.item.localAs != 0
    && (p.item.routerId.Some? ==> NotBlank(Trim(p.item.routerId.value)) && IsIpv4(Trim(p.item.routerId.value)))
  }

  predicate ProcessDeleteOk(devices: set<DeviceId>, upserts: set<On<string>>, p: On<string>) {
    IsIdentifier(p.device) && p.device in devices && NotBlank(p.item) && ProcessDeleteId(p) !in upserts
  }

  predicate PeerOk(devices: set<DeviceId>, device: DeviceId, vrf: string, address: string) {
    IsIdentifier(device) && device in devices && NotBlank(vrf) && NotBlank(address) && IsIpv4(Trim(address))
  }

  predicate NeighborOk(devices: set<DeviceId>, goneProcesses: set<On<string>>, n: On<BgpNeighbor>) {
    && PeerOk(devices, n.device, n.item.vrf, n.item.address)
    && On(n.device, Trim(n.item.vrf)) !in goneProcesses && n.item.remoteAs != 0
  }

  predicate NeighborDeleteOk(devices: set<DeviceId>, upserts: set<On<Peer>>, n: On<Peer>) {
    PeerOk(devices, n.device, n.item.vrf, n.item.address) && NeighborDeleteId(n) !in upserts
  }

  // ---- The whole request ----

  function EndpointIds(i: Intent): set<DeviceId> { set e | e in i.endpoints :: e.id }
  function MemberIds(i: Intent): set<DeviceId> { set m | m in i.members :: m.id }
  function VlanIds(i: Intent): set<u16> { set v | v in i.vlans :: v.vlanId }
  function AclIds(i: Intent): set<u16> { set a | a in i.acls :: a.aclId }
  function PortKeys(i: Intent): set<On<string>> { set p | p in i.interfaces :: PortKey(p) }
  function BindKeys(i: Intent): set<On<string>> { set b | b in i.bindings :: BindKey(b) }
  function ProcessIds(i: Intent): set<On<string>> { set p | p in i.processes :: ProcessId(p) }
  function GoneProcesses(i: Intent): set<On<string>> { set p | p in i.deleteProcesses :: ProcessDeleteId(p) }
  function NeighborIds(i: Intent): set<On<Peer>> { set n | n in i.neighbors :: NeighborId(n) }

  ghost predicate ShapeOk(i: Intent) {
    && NotBlank(i.domainId) && i.endpoints != [] && i.members != [] && TopologyOk(i.topology, |i.endpoints|)
    && (forall n :: 0 <= n < |i.endpoints| ==> EndpointOk(i.endpoints[n])) && Distinct(i.endpoints, EndpointId)
    && (forall n :: 0 <= n < |i.members| ==> MemberOk(EndpointIds(i), i.members[n])) && Distinct(i.members, MemberId)
  }

  ghost predicate VlansOk(i: Intent) {
    && (forall n :: 0 <= n < |i.vlans| ==> VlanOk(i.vlans[n])) && Distinct(i.vlans, VlanId)
    && (forall n :: 0 <= n < |i.deleteVlans| ==> VlanIdOk(i.deleteVlans[n])) && Distinct(i.deleteVlans, Itself)
    && (forall n :: 0 <= n < |i.deleteVlans| ==> i.deleteVlans[n] !in VlanIds(i))
  }

  ghost predicate PortsOk(i: Intent) {
    && (forall n :: 0 <= n < |i.interfaces| ==> PortOk(MemberIds(i), VlanIds(i), i.interfaces[n]))
    && Distinct(i.interfaces, PortKey)
    && (forall n :: 0 <= n < |i.deleteInterfaces| ==> PortDeleteOk(MemberIds(i), PortKeys(i), i.deleteInterfaces[n]))
    && Distinct(i.deleteInterfaces, PortDeleteKey)
  }

  ghost predicate AclsOk(i: Intent) {
    && (forall n :: 0 <= n < |i.acls| ==> AclOk(i.acls[n])) && Distinct(i.acls, AclId)
    && (forall n :: 0 <= n < |i.deleteAcls| ==> AclIdOk(i.deleteAcls[n])) && Distinct(i.deleteAcls, Itself)
    && (forall n :: 0 <= n < |i.deleteAcls| ==> i.deleteAcls[n] !in AclIds(i))
  }

  ghost predicate BindingsOk(i: Intent) {
    && (forall n :: 0 <= n < |i.bindings| ==> BindingOk(MemberIds(i), AclIds(i), i.bindings[n]))
    && Distinct(i.bindings, BindKey)
    && (forall n :: 0 <= n < |i.deleteBindings| ==> BindingDeleteOk(MemberIds(i), BindKeys(i), i.deleteBindings[n]))
    && Distinct(i.deleteBindings, BindKey)
  }

  ghost predicate ProcessesOk(i: Intent) {
    && (forall n :: 0 <= n < |i.processes| ==> ProcessOk(MemberIds(i), i.processes[n]))
    && Distinct(i.processes, ProcessId)
    && (forall n :: 0 <= n < |i.deleteProcesses| ==> ProcessDeleteOk(MemberIds(i), ProcessIds(i), i.deleteProcesses[n]))
    && Distinct(i.deleteProcesses, ProcessDeleteId)
  }

  ghost predicate NeighborsOk(i: Intent) {
    && (forall n :: 0 <= n < |i.neighbors| ==> NeighborOk(MemberIds(i), GoneProcesses(i), i.neighbors[n]))
    && Distinct(i.neighbors, NeighborId)
    && (forall n :: 0 <= n < |i.deleteNeighbors| ==> NeighborDeleteOk(MemberIds(i), NeighborIds(i), i.deleteNeighbors[n]))
    && Distinct(i.deleteNeighbors, NeighborDeleteId)
  }

  /** A valid request: every part well formed and known, no part twice, and nothing both wanted and dropped. */
  ghost predicate Valid(i: Intent) {
    ShapeOk(i) && VlansOk(i) && PortsOk(i) && AclsOk(i) && BindingsOk(i) && ProcessesOk(i) && NeighborsOk(i)
  }
}
