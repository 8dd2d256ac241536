/** Configuration objects of a switch, the state wanted for a device and the state it has. */
module ConfigModel {
  import opened Wrappers
  import opened Journal

  type u16 = x: int | 0 <= x < 0x1_0000

  type u32 = x: int | 0 <= x < 0x1_0000_0000

  datatype AclAction = Permit | Deny

  datatype AclProtocol = Ip | Tcp | Udp | Icmp

  datatype AclDirection = Inbound | Outbound

  datatype AclKind = AdvancedIpv4 | BasicIpv4

  datatype AclEndpoint = AclEndpoint(address: string, wildcard: string)

  datatype AclRule = AclRule(
    sequence: u16,
    action: AclAction,
    protocol: AclProtocol,
    source: Option<AclEndpoint>,
    destination: Option<AclEndpoint>,
    sourcePort: Option<u16>,
    destinationPort: Option<u16>,
    description: Option<string>)

  datatype AclConfig = AclConfig(
    aclId: u16,
    kind: AclKind,
    name: Option<string>,
    description: Option<string>,
    rules: seq<AclRule>)

  datatype AclBinding = AclBinding(interfaceName: string, direction: AclDirection, aclId: u16)

  datatype AdminState = Up | Down

  datatype PortMode = Access(vlanId: u16) | Trunk(nativeVlan: Option<u16>, allowedVlans: seq<u16>)

  datatype InterfaceConfig = InterfaceConfig(
    name: string,
    adminState: AdminState,
    description: Option<string>,
    mode: PortMode)

  datatype VlanConfig = VlanConfig(vlanId: u16, name: Option<string>, description: Option<string>)

  datatype BgpProcess = BgpProcess(vrf: string, localAs: u32, routerId: Option<string>)

  datatype BgpNeighbor = BgpNeighbor(
    vrf: string,
    address: string,
    remoteAs: u32,
    description: Option<string>,
    importPolicy: Option<string>,
    exportPolicy: Option<string>)

  function AclBindingKey(interfaceName: string, direction: AclDirection): string {
    interfaceName + "|" + (if direction.Inbound? then "inbound" else "outbound")
  }

  function BgpNeighborKey(vrf: string, address: string): string {
    vrf + "|" + address
  }

  // The key under which each kind of object is kept.
  function VlanKeyOf(v: VlanConfig): u16 { v.vlanId }

  function InterfaceKeyOf(i: InterfaceConfig): string { i.name }

  function AclKeyOf(a: AclConfig): u16 { a.aclId }

  function BindingKeyOf(b: AclBinding): string { AclBindingKey(b.interfaceName, b.direction) }

  function ProcessKeyOf(p: BgpProcess): string { p.vrf }

  function NeighborKeyOf(n: BgpNeighbor): string { BgpNeighborKey(n.vrf, n.address) }

  /** What a device is wanted to hold, and what it is wanted to lose. */
  datatype Desired = Desired(
    deviceId: DeviceId,
    vlans: map<u16, VlanConfig>,
    interfaces: map<string, InterfaceConfig>,
    acls: map<u16, AclConfig>,
    bindings: map<string, AclBinding>,
    routePolicyRefs: set<string>,
    processes: map<string, BgpProcess>,
    neighbors: map<string, BgpNeighbor>,
    deleteVlans: set<u16>,
    deleteInterfaces: set<string>,
    deleteAcls: set<u16>,
    deleteBindings: map<string, AclBinding>,
    deleteProcesses: set<string>,
    deleteNeighbors: map<string, BgpNeighbor>)

  /** The recorded or observed state of a device. */
  datatype Shadow = Shadow(
    deviceId: DeviceId,
    revision: nat,
    vlans: map<u16, VlanConfig>,
    interfaces: map<string, InterfaceConfig>,
    acls: map<u16, AclConfig>,
    bindings: map<string, AclBinding>,
    processes: map<string, BgpProcess>,
    neighbors: map<string, BgpNeighbor>,
    warnings: seq<string>)

  /** Two states hold the same objects. */
  predicate SameContents(s: Shadow, t: Shadow) {
    && s.vlans == t.vlans && s.interfaces == t.interfaces && s.acls == t.acls
    && s.bindings == t.bindings && s.processes == t.processes && s.neighbors == t.neighbors
  }

  function EmptyShadow(deviceId: DeviceId): Shadow {
    Shadow(deviceId, 0, map[], map[], map[], map[], map[], map[], [])
  }

  /** The recorded state that holds exactly the wanted objects. */
  function ShadowFrom(d: Desired): Shadow {
    Shadow(d.deviceId, 0, d.vlans, d.interfaces, d.acls, d.bindings, d.processes, d.neighbors, [])
  }
}
