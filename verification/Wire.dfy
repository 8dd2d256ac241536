/** The wire form of configuration objects, and the states read back from it. */
module Wire {
  import opened Wrappers
  import opened ConfigModel
  import opened Intents

  datatype WireVlan = WireVlan(vlanId: u32, name: Option<string>, description: Option<string>)

  datatype WireMode = WireMode(kind: int, accessVlan: Option<u32>, nativeVlan: Option<u32>, allowedVlans: seq<u32>)

  datatype WirePort = WirePort(name: string, adminState: int, description: Option<string>, mode: Option<WireMode>)

  datatype WireRule = WireRule(
    sequence: u32, action: int, protocol: int, source: Option<AclEndpoint>, destination: Option<AclEndpoint>,
    sourcePort: Option<u32>, destinationPort: Option<u32>, description: Option<string>)

  datatype WireAcl = WireAcl(
    aclId: u32, name: Option<string>, description: Option<string>, rules: seq<WireRule>, kind: int)

  datatype WireBinding = WireBinding(interfaceName: string, direction: int, aclId: u32)

  datatype WireProcess = WireProcess(vrf: string, localAs: u32, routerId: Option<string>)

  datatype WireNeighbor = WireNeighbor(
    vrf: string, address: string, remoteAs: u32, description: Option<string>,
    importPolicy: Option<string>, exportPolicy: Option<string>)

  // ---- Encoding ----

  function Widen(x: Option<u16>): Option<u32> {
    match x
    case None => None
    case Some(v) => Some(v)
  }

  function EncodeVlan(v: VlanConfig): WireVlan { WireVlan(v.vlanId, v.name, v.description) }

  function EncodeMode(m: PortMode): WireMode {
    match m
    case Access(v) => WireMode(1, Some(v), None, [])
    case Trunk(native, allowed) => WireMode(2, None, Widen(native), allowed)
  }

  function EncodePort(p: InterfaceConfig): WirePort {
    WirePort(p.name, if p.adminState.Up? then 1 else 2, p.description, Some(EncodeMode(p.mode)))
  }

  function EncodeRule(r: AclRule): WireRule {
    WireRule(
      r.sequence,
      if r.action.Permit? then 1 else 2,
      match r.protocol { case Ip => 1 case Tcp => 2 case Udp => 3 case Icmp => 4 },
      r.source, r.destination, Widen(r.sourcePort), Widen(r.destinationPort), r.description)
  }

  function EncodeRules(rs: seq<AclRule>): (ws: seq<WireRule>)
    ensures |ws| == |rs| && forall n :: 0 <= n < |rs| ==> ws[n] == EncodeRule(rs[n])
  {
    seq(|rs|, n requires 0 <= n < |rs| => EncodeRule(rs[n]))
  }

  function EncodeAcl(a: AclConfig): WireAcl {
    WireAcl(a.aclId, a.name, a.description, EncodeRules(a.rules), if a.kind.AdvancedIpv4? then 1 else 2)
  }

  function EncodeBinding(b: AclBinding): WireBinding {
    WireBinding(b.interfaceName, if b.direction.Inbound? then 1 else 2, b.aclId)
  }

  function EncodeProcess(p: BgpProcess): WireProcess { WireProcess(p.vrf, p.localAs, p.routerId) }

  function EncodeNeighbor(n: BgpNeighbor): WireNeighbor {
    WireNeighbor(n.vrf, n.address, n.remoteAs, n.description, n.importPolicy, n.exportPolicy)
  }

  // ---- Decoding: every number is range checked, every code must be known ----

  function Narrow(x: u32): Result<u16> {
    if x < 0x1_0000 then Ok(x) else Err
  }

  function NarrowOption(x: Option<u32>): Result<Option<u16>> {
    match x
    case None => Ok(None)
    case Some(v) => if v < 0x1_0000 then Ok(Some(v)) else Err
  }

  function DecodeVlan(w: WireVlan): Result<VlanConfig> {
    match Narrow(w.vlanId)
    case Err => Err
    case Ok(id) => if VlanIdOk(id) then Ok(VlanConfig(id, w.name, w.description)) else Err
  }

  function DecodeVlanList(ws: seq<u32>): Result<seq<u16>> {
    if ws == [] then Ok([])
    else
      var n := |ws| - 1;
      match (DecodeVlanList(ws[..n]), Narrow(ws[n]))
      case (Ok(rest), Ok(v)) => Ok(rest + [v])
      case _ => Err
  }

  function DecodeMode(w: WireMode): Result<PortMode> {
    if w.kind == 1 then
      (match w.accessVlan
       case None => Err
       case Some(x) => (match Narrow(x) case Ok(v) => Ok(Access(v)) case Err => Err))
    else if w.kind == 2 then
      (match (NarrowOption(w.nativeVlan), DecodeVlanList(w.allowedVlans))
       case (Ok(native), Ok(allowed)) => Ok(Trunk(native, allowed))
       case _ => Err)
    else Err
  }

  function DecodePort(w: WirePort): Result<InterfaceConfig> {
    if w.mode.None? || !(1 <= w.adminState <= 2) then Err
    else
      match DecodeMode(w.mode.value)
      case Err => Err
      case Ok(mode) => Ok(InterfaceConfig(w.name, if w.adminState == 1 then Up else Down, w.description, mode))
  }

  function DecodePortNumber(x: Option<u32>): Result<Option<u16>> {
    match NarrowOption(x)
    case Ok(v) => if v == Some(0) then Err else Ok(v)
    case Err => Err
  }

  predicate EndpointReadable(e: Option<AclEndpoint>) {
    e.Some? ==> NotBlank(e.value.address) && NotBlank(e.value.wildcard)
  }

  function DecodeRule(w: WireRule): Result<AclRule> {
    if !(1 <= w.action <= 2) || !(1 <= w.protocol <= 4) || !EndpointReadable(w.source) || !EndpointReadable(w.destination) then Err
    else
      match (Narrow(w.sequence), DecodePortNumber(w.sourcePort), DecodePortNumber(w.destinationPort))
      case (Ok(sequence), Ok(source), Ok(destination)) =>
        Ok(AclRule(
             sequence,
             if w.action == 1 then Permit else Deny,
             if w.protocol == 1 then Ip else if w.protocol == 2 then Tcp else if w.protocol == 3 then Udp else Icmp,
             w.source, w.destination, source, destination, w.description))
      case _ => Err
  }

  function DecodeRules(ws: seq<WireRule>): Result<seq<AclRule>> {
    if ws == [] then Ok([])
    else
      var n := |ws| - 1;
      match (DecodeRules(ws[..n]), DecodeRule(ws[n]))
      case (Ok(rest), Ok(r)) => Ok(rest + [r])
      case _ => Err
  }

  function DecodeAclId(x: u32): Result<u16> {
    if 2000 <= x <= 3999 then Ok(x) else Err
  }

  /** An unspecified kind is read from the number range; a given kind must fit it. */
  function DecodeKind(kind: int, id: u16): Result<AclKind> {
    if kind == 1 then (if 3000 <= id <= 3999 then Ok(AdvancedIpv4) else Err)
    else if kind == 2 then (if 2000 <= id <= 2999 then Ok(BasicIpv4) else Err)
    else if 2000 <= id <= 2999 then Ok(BasicIpv4)
    else if 3000 <= id <= 3999 then Ok(AdvancedIpv4)
    else Err
  }

  function DecodeAcl(w: WireAcl): Result<AclConfig> {
    match DecodeAclId(w.aclId)
    case Err => Err
    case Ok(id) =>
      match (DecodeKind(w.kind, id), DecodeRules(w.rules))
      case (Ok(kind), Ok(rules)) => Ok(AclConfig(id, kind, w.name, w.description, rules))
      case _ => Err
  }

  function DecodeBinding(w: WireBinding): Result<AclBinding> {
    if !NotBlank(w.interfaceName) || !(1 <= w.direction <= 2) then Err
    else
      match DecodeAclId(w.aclId)
      case Err => Err
      case Ok(id) => Ok(AclBinding(w.interfaceName, if w.direction == 1 then Inbound else Outbound, id))
  }

  function DecodeProcess(w: WireProcess): Result<BgpProcess> {
    if !NotBlank(w.vrf) || w.localAs == 0 then Err else Ok(BgpProcess(w.vrf, w.localAs, w.routerId))
  }

  function DecodeNeighbor(w: WireNeighbor): Result<BgpNeighbor> {
    if !NotBlank(w.vrf) || !NotBlank(w.address) || w.remoteAs == 0 then Err
    else Ok(BgpNeighbor(w.vrf, w.address, w.remoteAs, w.description, w.importPolicy, w.exportPolicy))
  }

  // ---- What survives the trip ----

  predicate AnyPort(p: InterfaceConfig) { true }

  predicate RuleReadable(r: AclRule) {
    EndpointReadable(r.source) && EndpointReadable(r.destination) && r.sourcePort != Some(0) && r.destinationPort != Some(0)
  }

  predicate AclReadable(a: AclConfig) {
    AclIdFitsKind(a.aclId, a.kind) && forall n :: 0 <= n < |a.rules| ==> RuleReadable(a.rules[n])
  }

  predicate BindingReadable(b: AclBinding) { NotBlank(b.interfaceName) && AclIdOk(b.aclId) }

  predicate ProcessReadable(p: BgpProcess) { NotBlank(p.vrf) && p.localAs != 0 }

  predicate NeighborReadable(n: BgpNeighbor) { NotBlank(n.vrf) && NotBlank(n.address) && n.remoteAs != 0 }

  /** An object encoded and decoded comes back unchanged exactly when it is readable, else it is refused. */
  lemma VlanTrip(v: VlanConfig)
    ensures DecodeVlan(EncodeVlan(v)) == if VlanOk(v) then Ok(v) else Err
  {
  }

  lemma {:induction false} VlanListTrip(vs: seq<u16>)
    ensures DecodeVlanList(vs) == Ok(vs)
  {
    if vs != [] {
      var n := |vs| - 1;
      VlanListTrip(vs[..n]);
      assert vs == vs[..n] + [vs[n]];
    }
  }

  lemma PortTrip(p: InterfaceConfig)
    ensures DecodePort(EncodePort(p)) == Ok(p)
  {
    if p.mode.Trunk? { VlanListTrip(p.mode.allowedVlans); }
  }

  lemma RuleTrip(r: AclRule)
    ensures DecodeRule(EncodeRule(r)) == if RuleReadable(r) then Ok(r) else Err
  {
  }

  lemma {:induction false} RulesTrip(rs: seq<AclRule>)
    ensures DecodeRules(EncodeRules(rs)) == if forall n :: 0 <= n < |rs| ==> RuleReadable(rs[n]) then Ok(rs) else Err
  {
    if rs != [] {
      var n := |rs| - 1;
      var front := rs[..n];
      RulesTrip(front);
      assert EncodeRules(rs)[..n] == EncodeRules(front);
      RuleTrip(rs[n]);
      assert forall m :: 0 <= m < n ==> front[m] == rs[m];
      assert rs == front + [rs[n]];
    }
  }

  lemma AclTrip(a: AclConfig)
    ensures DecodeAcl(EncodeAcl(a)) == if AclReadable(a) then Ok(a) else Err
  {
    RulesTrip(a.rules);
  }

  lemma BindingTrip(b: AclBinding)
    ensures DecodeBinding(EncodeBinding(b)) == if BindingReadable(b) then Ok(b) else Err
  {
  }

  lemma ProcessTrip(p: BgpProcess)
    ensures DecodeProcess(EncodeProcess(p)) == if ProcessReadable(p) then Ok(p) else Err
  {
  }

  lemma NeighborTrip(n: BgpNeighbor)
    ensures DecodeNeighbor(EncodeNeighbor(n)) == if NeighborReadable(n) then Ok(n) else Err
  {
  }
}
