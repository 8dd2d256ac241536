/** Why a request is refused: the faults it can have, each in its own words. */
module Faults {
  import opened Wrappers
  import opened Text
  import opened Journal
  import opened ConfigModel
  import opened Intents

  /** Two different parts have one key. */
  ghost predicate Repeats<T, K>(items: seq<T>, key: T -> K) {
    exists m, n :: 0 <= m < n < |items| && key(items[m]) == key(items[n])
  }

  lemma RepeatsIsNotDistinct<T, K>(items: seq<T>, key: T -> K)
    ensures Repeats(items, key) <==> !Distinct(items, key)
  {
  }

  predicate BadName(s: string) {
    s == "" || exists c :: c in s && !('a' <= c <= 'z' || 'A' <= c <= 'Z' || '0' <= c <= '9' || c in "-_")
  }

  // ---- The domain, its endpoints and members ----

  predicate BadEndpoint(e: Endpoint) {
    BadName(e.id) || AllSpace(e.host) || AllSpace(e.secretRef) || e.port == 0
  }

  predicate BadMember(i: Intent, m: Member) {
    BadName(m.id) || BadName(m.endpoint) || !exists e :: e in i.endpoints && e.id == m.endpoint
  }

  predicate WrongCount(i: Intent) {
    || (i.topology.StackSingleManagementIp? && |i.endpoints| != 1)
    || (i.topology.MlagDualManagementIp? && |i.endpoints| != 2)
    || (i.topology.SmallFabric? && |i.endpoints| < 2)
  }

  ghost predicate ShapeFault(i: Intent) {
    || AllSpace(i.domainId) || i.endpoints == [] || i.members == [] || WrongCount(i)
    || (exists e :: e in i.endpoints && BadEndpoint(e)) || Repeats(i.endpoints, (e: Endpoint) => e.id)
    || (exists m :: m in i.members && BadMember(i, m)) || Repeats(i.members, (m: Member) => m.id)
  }

  lemma SomePartFails<T(!new)>(items: seq<T>, ok: T -> bool, bad: T -> bool)
    requires forall x :: x in items ==> (bad(x) <==> !ok(x))
    ensures (exists x :: x in items && bad(x)) <==> !AllOk(items, ok)
  {
    if !AllOk(items, ok) {
      var n :| 0 <= n < |items| && !ok(items[n]);
      assert items[n] in items;
    }
  }

  lemma EndpointIsBad(e: Endpoint)
    ensures BadEndpoint(e) <==> !EndpointOk(e)
  {
    BlankIsTrimmedAway(e.host);
    BlankIsTrimmedAway(e.secretRef);
  }

  lemma SameKeys<T, K>(items: seq<T>, f: T -> K, g: T -> K)
    requires forall n :: 0 <= n < |items| ==> f(items[n]) == g(items[n])
    ensures Distinct(items, f) <==> Distinct(items, g)
  {
  }

  lemma ShapeFaults(i: Intent)
    ensures ShapeFault(i) <==> !ShapeOk(i)
  {
    BlankIsTrimmedAway(i.domainId);
    forall e ensures BadEndpoint(e) <==> !EndpointOk(e) { EndpointIsBad(e); }
    SomePartFails(i.endpoints, EndpointOk, BadEndpoint);
    SomePartFails(i.members, m => MemberOk(EndpointIds(i), m), m => BadMember(i, m));
    RepeatsIsNotDistinct(i.endpoints, (e: Endpoint) => e.id);
    RepeatsIsNotDistinct(i.members, (m: Member) => m.id);
    SameKeys(i.endpoints, EndpointId, (e: Endpoint) => e.id);
    SameKeys(i.members, MemberId, (m: Member) => m.id);
  }

  /** The passes over one list, as faults. */
  lemma ListFaults<T(!new), K>(items: seq<T>, ok: T -> bool, bad: T -> bool, key: T -> K, same: T -> K)
    requires forall x :: x in items ==> (bad(x) <==> !ok(x)) && key(x) == same(x)
    ensures (exists x :: x in items && bad(x)) || Repeats(items, same) <==> !(AllOk(items, ok) && Distinct(items, key))
  {
    SomePartFails(items, ok, bad);
    RepeatsIsNotDistinct(items, same);
    SameKeys(items, key, same);
  }

  // ---- VLANs ----

  predicate BadVlan(id: u16) { id == 0 || id > 4094 }

  predicate Declared(i: Intent, id: u16) { exists v :: v in i.vlans && v.vlanId == id }

  ghost predicate VlanFault(i: Intent) {
    || (exists v :: v in i.vlans && BadVlan(v.vlanId)) || Repeats(i.vlans, (v: VlanConfig) => v.vlanId)
    || (exists id :: id in i.deleteVlans && BadVlan(id)) || Repeats(i.deleteVlans, (id: u16) => id)
    || (exists id :: id in i.deleteVlans && Declared(i, id))
  }

  lemma VlanFaults(i: Intent)
    ensures VlanFault(i) <==> !VlansOk(i)
  {
    ListFaults(i.vlans, VlanOk, (v: VlanConfig) => BadVlan(v.vlanId), VlanId, (v: VlanConfig) => v.vlanId);
    ListFaults(i.deleteVlans, VlanIdOk, BadVlan, Itself, (id: u16) => id);
    SomePartFails(i.deleteVlans, (id: u16) => id !in VlanIds(i), (id: u16) => Declared(i, id));
  }

  // ---- Interfaces ----

  predicate UnknownMember(i: Intent, device: DeviceId) { !exists m :: m in i.members && m.id == device }

  /** The interface mode names a VLAN: as access, native or allowed VLAN. */
  predicate Names(m: PortMode, v: u16) {
    match m
    case Access(id) => id == v
    case Trunk(native, allowed) => native == Some(v) || v in allowed
  }

  ghost predicate BadMode(i: Intent, m: PortMode) {
    || (exists v :: Names(m, v) && !Declared(i, v))
    || (m.Trunk? && m.nativeVlan.None? && m.allowedVlans == [])
    || (m.Trunk? && Repeats(m.allowedVlans, (v: u16) => v))
  }

  ghost predicate BadPort(i: Intent, p: On<InterfaceConfig>) {
    AllSpace(p.item.name) || UnknownMember(i, p.device) || BadMode(i, p.item.mode)
  }

  ghost predicate BadPortDelete(i: Intent, p: On<string>) {
    || AllSpace(p.item) || UnknownMember(i, p.device)
    || exists q :: q in i.interfaces && q.device == p.device && q.item.name == p.item
  }

  ghost predicate PortFault(i: Intent) {
    || (exists p :: p in i.interfaces && BadPort(i, p))
    || Repeats(i.interfaces, (p: On<InterfaceConfig>) => On(p.device, p.item.name))
    || (exists p :: p in i.deleteInterfaces && BadPortDelete(i, p))
    || Repeats(i.deleteInterfaces, (p: On<string>) => On(p.device, p.item))
  }

  lemma ModeIsBad(i: Intent, m: PortMode)
    ensures BadMode(i, m) <==> !ModeOk(VlanIds(i), m)
  {
    forall v ensures v in VlanIds(i) <==> Declared(i, v) {
    }
    if m.Trunk? {
      RepeatsIsNotDistinct(m.allowedVlans, (v: u16) => v);
      if m.nativeVlan.Some? {
        assert Names(m, m.nativeVlan.value);
      }
      forall n | 0 <= n < |m.allowedVlans| ensures Names(m, m.allowedVlans[n]) {
      }
    } else {
      assert Names(m, m.vlanId);
    }
  }

  lemma PortIsBad(i: Intent, p: On<InterfaceConfig>)
    ensures BadPort(i, p) <==> !PortOk(MemberIds(i), VlanIds(i), p)
  {
    BlankIsTrimmedAway(p.item.name);
    ModeIsBad(i, p.item.mode);
  }

  lemma PortDeleteIsBad(i: Intent, p: On<string>)
    ensures BadPortDelete(i, p) <==> !PortDeleteOk(MemberIds(i), PortKeys(i), p)
  {
    BlankIsTrimmedAway(p.item);
    if q :| q in i.interfaces && q.device == p.device && q.item.name == p.item {
      assert PortKey(q) == p;
    }
  }

  lemma PortFaults(i: Intent)
    ensures PortFault(i) <==> !PortsOk(i)
  {
    forall p ensures BadPort(i, p) <==> !PortOk(MemberIds(i), VlanIds(i), p) { PortIsBad(i, p); }
    forall p ensures BadPortDelete(i, p) <==> !PortDeleteOk(MemberIds(i), PortKeys(i), p) { PortDeleteIsBad(i, p); }
    ListFaults(i.interfaces, p => PortOk(MemberIds(i), VlanIds(i), p), p => !PortOk(MemberIds(i), VlanIds(i), p),
               PortKey, (p: On<InterfaceConfig>) => On(p.device, p.item.name));
    ListFaults(i.deleteInterfaces, p => PortDeleteOk(MemberIds(i), PortKeys(i), p), p => !PortDeleteOk(MemberIds(i), PortKeys(i), p),
               PortDeleteKey, (p: On<string>) => On(p.device, p.item));
  }

  // ---- ACLs ----

  /** The text is not four numbers below 256 joined by full stops. */
  predicate BadAddress(s: string) {
    !exists a: nat, b: nat, c: nat, d: nat :: a < 256 && b < 256 && c < 256 && d < 256 && s == Quad(a, b, c, d)
  }

  predicate BadMatch(e: Option<AclEndpoint>) { e.Some? && (BadAddress(e.value.address) || BadAddress(e.value.wildcard)) }

  predicate MatchesPorts(r: AclRule) { r.sourcePort.Some? || r.destinationPort.Some? }

  predicate BadRule(kind: AclKind, r: AclRule) {
    || (MatchesPorts(r) && r.protocol in {Ip, Icmp})
    || r.sourcePort == Some(0) || r.destinationPort == Some(0)
    || (kind.BasicIpv4? && (r.protocol != Ip || r.destination.Some? || MatchesPorts(r)))
    || BadMatch(r.source) || BadMatch(r.destination)
  }

  predicate BadAclId(id: u16) { id < 2000 || id > 3999 }

  ghost predicate BadAcl(a: AclConfig) {
    || (a.kind.AdvancedIpv4? && (a.aclId < 3000 || a.aclId > 3999)) || (a.kind.BasicIpv4? && (a.aclId < 2000 || a.aclId > 2999))
    || (exists r :: r in a.rules && BadRule(a.kind, r)) || Repeats(a.rules, (r: AclRule) => r.sequence)
  }

  predicate DeclaredAcl(i: Intent, id: u16) { exists a :: a in i.acls && a.aclId == id }

  ghost predicate AclFault(i: Intent) {
    || (exists a :: a in i.acls && BadAcl(a)) || Repeats(i.acls, (a: AclConfig) => a.aclId)
    || (exists id :: id in i.deleteAcls && BadAclId(id)) || Repeats(i.deleteAcls, (id: u16) => id)
    || (exists id :: id in i.deleteAcls && DeclaredAcl(i, id))
  }

  lemma AddressIsBad(s: string)
    ensures BadAddress(s) <==> !IsIpv4(s)
  {
    Ipv4IsFourNumbers(s);
  }

  lemma MatchIsBad(e: Option<AclEndpoint>)
    ensures BadMatch(e) <==> !AddressOk(e)
  {
    if e.Some? {
      AddressIsBad(e.value.address);
      AddressIsBad(e.value.wildcard);
    }
  }

  lemma RuleIsBad(kind: AclKind, r: AclRule)
    ensures BadRule(kind, r) <==> !RuleOk(kind, r)
  {
    MatchIsBad(r.source);
    MatchIsBad(r.destination);
  }

  lemma AclIsBad(a: AclConfig)
    ensures BadAcl(a) <==> !AclOk(a)
  {
    forall r ensures BadRule(a.kind, r) <==> !RuleOk(a.kind, r) { RuleIsBad(a.kind, r); }
    SomePartFails(a.rules, r => RuleOk(a.kind, r), r => BadRule(a.kind, r));
    RepeatsIsNotDistinct(a.rules, (r: AclRule) => r.sequence);
  }

  lemma AclFaults(i: Intent)
    ensures AclFault(i) <==> !AclsOk(i)
  {
    forall a ensures BadAcl(a) <==> !AclOk(a) { AclIsBad(a); }
    ListFaults(i.acls, AclOk, a => !AclOk(a), AclId, (a: AclConfig) => a.aclId);
    ListFaults(i.deleteAcls, AclIdOk, BadAclId, Itself, (id: u16) => id);
    SomePartFails(i.deleteAcls, (id: u16) => id !in AclIds(i), (id: u16) => DeclaredAcl(i, id));
  }

  // ---- ACL bindings ----

  /** Two bindings for one interface of one member and one direction. */
  predicate SameSpot(a: On<AclBinding>, b: On<AclBinding>) {
    a.device == b.device && AclBindingKey(a.item.interfaceName, a.item.direction) == AclBindingKey(b.item.interfaceName, b.item.direction)
  }

  predicate BadBinding(i: Intent, b: On<AclBinding>) {
    AllSpace(b.item.interfaceName) || UnknownMember(i, b.device) || !DeclaredAcl(i, b.item.aclId)
  }

  predicate BadBindingDelete(i: Intent, b: On<AclBinding>) {
    || AllSpace(b.item.interfaceName) || UnknownMember(i, b.device) || BadAclId(b.item.aclId)
    || exists c :: c in i.bindings && SameSpot(b, c)
  }

  ghost predicate TwoAtOneSpot(items: seq<On<AclBinding>>) {
    exists m, n :: 0 <= m < n < |items| && SameSpot(items[m], items[n])
  }

  ghost predicate BindingFault(i: Intent) {
    || (exists b :: b in i.bindings && BadBinding(i, b)) || TwoAtOneSpot(i.bindings)
    || (exists b :: b in i.deleteBindings && BadBindingDelete(i, b)) || TwoAtOneSpot(i.deleteBindings)
  }

  lemma BindingIsBad(i: Intent, b: On<AclBinding>)
    ensures BadBinding(i, b) <==> !BindingOk(MemberIds(i), AclIds(i), b)
  {
    BlankIsTrimmedAway(b.item.interfaceName);
  }

  lemma BindingDeleteIsBad(i: Intent, b: On<AclBinding>)
    ensures BadBindingDelete(i, b) <==> !BindingDeleteOk(MemberIds(i), BindKeys(i), b)
  {
    BlankIsTrimmedAway(b.item.interfaceName);
    if c :| c in i.bindings && SameSpot(b, c) {
      assert BindKey(c) == BindKey(b);
    }
    if BindKey(b) in BindKeys(i) {
      var c :| c in i.bindings && BindKey(c) == BindKey(b);
      assert SameSpot(b, c);
    }
  }

  lemma SpotsAreKeys(items: seq<On<AclBinding>>)
    ensures TwoAtOneSpot(items) <==> !Distinct(items, BindKey)
  {
    forall m, n | 0 <= m < n < |items| ensures SameSpot(items[m], items[n]) <==> BindKey(items[m]) == BindKey(items[n]) {
    }
  }

  lemma BindingFaults(i: Intent)
    ensures BindingFault(i) <==> !BindingsOk(i)
  {
    forall b ensures BadBinding(i, b) <==> !BindingOk(MemberIds(i), AclIds(i), b) { BindingIsBad(i, b); }
    forall b ensures BadBindingDelete(i, b) <==> !BindingDeleteOk(MemberIds(i), BindKeys(i), b) { BindingDeleteIsBad(i, b); }
    SomePartFails(i.bindings, b => BindingOk(MemberIds(i), AclIds(i), b), b => BadBinding(i, b));
    SomePartFails(i.deleteBindings, b => BindingDeleteOk(MemberIds(i), BindKeys(i), b), b => BadBindingDelete(i, b));
    SpotsAreKeys(i.bindings);
    SpotsAreKeys(i.deleteBindings);
  }

  // ---- BGP processes ----

  ghost predicate BadProcess(i: Intent, p: On<BgpProcess>) {
    || BadName(p.device) || UnknownMember(i, p.device) || AllSpace(p.item.vrf) || p.item.localAs == 0
    || (p.item.routerId.Some? && BadAddress(Trim(p.item.routerId.value)))
  }

  ghost predicate BadProcessDelete(i: Intent, p: On<string>) {
    || BadName(p.device) || UnknownMember(i, p.device) || AllSpace(p.item)
    || exists q :: q in i.processes && q.device == p.device && Trim(q.item.vrf) == Trim(p.item)
  }

  ghost predicate ProcessFault(i: Intent) {
    || (exists p :: p in i.processes && BadProcess(i, p))
    || Repeats(i.processes, (p: On<BgpProcess>) => On(p.device, Trim(p.item.vrf)))
    || (exists p :: p in i.deleteProcesses && BadProcessDelete(i, p))
    || Repeats(i.deleteProcesses, (p: On<string>) => On(p.device, Trim(p.item)))
  }

  lemma NameIsBad(s: string)
    ensures BadName(s) <==> !IsIdentifier(s)
  {
  }

  lemma ProcessIsBad(i: Intent, p: On<BgpProcess>)
    ensures BadProcess(i, p) <==> !ProcessOk(MemberIds(i), p)
  {
    NameIsBad(p.device);
    BlankIsTrimmedAway(p.item.vrf);
    if p.item.routerId.Some? {
      AddressIsBad(Trim(p.item.routerId.value));
      if IsIpv4(Trim(p.item.routerId.value)) {
        Ipv4IsNotBlank(Trim(p.item.routerId.value));
      }
    }
  }

  lemma ProcessDeleteIsBad(i: Intent, p: On<string>)
    ensures BadProcessDelete(i, p) <==> !ProcessDeleteOk(MemberIds(i), ProcessIds(i), p)
  {
    NameIsBad(p.device);
    BlankIsTrimmedAway(p.item);
    if q :| q in i.processes && q.device == p.device && Trim(q.item.vrf) == Trim(p.item) {
      assert ProcessId(q) == ProcessDeleteId(p);
    }
  }

  lemma ProcessFaults(i: Intent)
    ensures ProcessFault(i) <==> !ProcessesOk(i)
  {
    forall p ensures BadProcess(i, p) <==> !ProcessOk(MemberIds(i), p) { ProcessIsBad(i, p); }
    forall p ensures BadProcessDelete(i, p) <==> !ProcessDeleteOk(MemberIds(i), ProcessIds(i), p) { ProcessDeleteIsBad(i, p); }
    ListFaults(i.processes, p => ProcessOk(MemberIds(i), p), p => !ProcessOk(MemberIds(i), p),
               ProcessId, (p: On<BgpProcess>) => On(p.device, Trim(p.item.vrf)));
    ListFaults(i.deleteProcesses, p => ProcessDeleteOk(MemberIds(i), ProcessIds(i), p), p => !ProcessDeleteOk(MemberIds(i), ProcessIds(i), p),
               ProcessDeleteId, (p: On<string>) => On(p.device, Trim(p.item)));
  }

  // ---- BGP neighbours ----

  ghost predicate BadPeer(i: Intent, device: DeviceId, vrf: string, address: string) {
    BadName(device) || UnknownMember(i, device) || AllSpace(vrf) || BadAddress(Trim(address))
  }

  ghost predicate BadNeighbor(i: Intent, n: On<BgpNeighbor>) {
    || BadPeer(i, n.device, n.item.vrf, n.item.address) || n.item.remoteAs == 0
    || exists p :: p in i.deleteProcesses && p.device == n.device && Trim(p.item) == Trim(n.item.vrf)
  }

  ghost predicate BadNeighborDelete(i: Intent, n: On<Peer>) {
    || BadPeer(i, n.device, n.item.vrf, n.item.address)
    || exists q :: && q in i.neighbors && q.device == n.device && Trim(q.item.vrf) == Trim(n.item.vrf)
                   && Trim(q.item.address) == Trim(n.item.address)
  }

  ghost predicate NeighborFault(i: Intent) {
    || (exists n :: n in i.neighbors && BadNeighbor(i, n))
    || Repeats(i.neighbors, (n: On<BgpNeighbor>) => (n.device, Trim(n.item.vrf), Trim(n.item.address)))
    || (exists n :: n in i.deleteNeighbors && BadNeighborDelete(i, n))
    || Repeats(i.deleteNeighbors, (n: On<Peer>) => (n.device, Trim(n.item.vrf), Trim(n.item.address)))
  }

  lemma PeerIsBad(i: Intent, device: DeviceId, vrf: string, address: string)
    ensures BadPeer(i, device, vrf, address) <==> !PeerOk(MemberIds(i), device, vrf, address)
  {
    NameIsBad(device);
    BlankIsTrimmedAway(vrf);
    AddressIsBad(Trim(address));
    if IsIpv4(Trim(address)) {
      Ipv4IsNotBlank(Trim(address));
      TrimIsTrimmed(address);
    }
  }

  lemma NeighborIsBad(i: Intent, n: On<BgpNeighbor>)
    ensures BadNeighbor(i, n) <==> !NeighborOk(MemberIds(i), GoneProcesses(i), n)
  {
    PeerIsBad(i, n.device, n.item.vrf, n.item.address);
    if p :| p in i.deleteProcesses && p.device == n.device && Trim(p.item) == Trim(n.item.vrf) {
      assert ProcessDeleteId(p) == On(n.device, Trim(n.item.vrf));
    }
  }

  lemma NeighborDeleteIsBad(i: Intent, n: On<Peer>)
    ensures BadNeighborDelete(i, n) <==> !NeighborDeleteOk(MemberIds(i), NeighborIds(i), n)
  {
    PeerIsBad(i, n.device, n.item.vrf, n.item.address);
    if q :| && q in i.neighbors && q.device == n.device && Trim(q.item.vrf) == Trim(n.item.vrf)
            && Trim(q.item.address) == Trim(n.item.address) {
      assert NeighborId(q) == NeighborDeleteId(n);
    }
  }

  lemma NeighborFaults(i: Intent)
    ensures NeighborFault(i) <==> !NeighborsOk(i)
  {
    forall n ensures BadNeighbor(i, n) <==> !NeighborOk(MemberIds(i), GoneProcesses(i), n) { NeighborIsBad(i, n); }
    forall n ensures BadNeighborDelete(i, n) <==> !NeighborDeleteOk(MemberIds(i), NeighborIds(i), n) { NeighborDeleteIsBad(i, n); }
    SomePartFails(i.neighbors, n => NeighborOk(MemberIds(i), GoneProcesses(i), n), n => !NeighborOk(MemberIds(i), GoneProcesses(i), n));
    SomePartFails(i.deleteNeighbors, n => NeighborDeleteOk(MemberIds(i), NeighborIds(i), n),
                  n => !NeighborDeleteOk(MemberIds(i), NeighborIds(i), n));
    RepeatsIsNotDistinct(i.neighbors, (n: On<BgpNeighbor>) => (n.device, Trim(n.item.vrf), Trim(n.item.address)));
    RepeatsIsNotDistinct(i.deleteNeighbors, (n: On<Peer>) => (n.device, Trim(n.item.vrf), Trim(n.item.address)));
  }

  // ---- The whole request ----

  ghost predicate HasFault(i: Intent) {
    ShapeFault(i) || VlanFault(i) || PortFault(i) || AclFault(i) || BindingFault(i) || ProcessFault(i) || NeighborFault(i)
  }

  /** A request is valid exactly when it has none of the faults. */
  lemma ValidExactlyWithoutFault(i: Intent)
    ensures Valid(i) <==> !HasFault(i)
  {
    ShapeFaults(i);
    VlanFaults(i);
    PortFaults(i);
    AclFaults(i);
    BindingFaults(i);
    ProcessFaults(i);
    NeighborFaults(i);
  }
}
