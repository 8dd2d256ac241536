/** What the wire form of an object is, number by number, and that reading accepts exactly the wire forms of sound
    objects: anything else a device reports is refused. */
module WireCodes {
  import opened Wrappers
  import opened Text
  import opened ConfigModel
  import opened Wire

  predicate SameNumber(a: Option<u16>, b: Option<u32>) {
    (a.None? && b.None?) || (a.Some? && b.Some? && a.value == b.value)
  }

  // ---- The wire forms ----

  predicate VlanOnWire(v: VlanConfig, w: WireVlan) {
    w.vlanId == v.vlanId && w.name == v.name && w.description == v.description
  }

  ghost predicate ModeOnWire(m: PortMode, w: WireMode) {
    match m
    case Access(v) => w.kind == 1 && w.accessVlan == Some(v)
    case Trunk(native, allowed) =>
      && w.kind == 2 && SameNumber(native, w.nativeVlan)
      && |w.allowedVlans| == |allowed| && forall n :: 0 <= n < |allowed| ==> w.allowedVlans[n] == allowed[n]
  }

  ghost predicate PortOnWire(p: InterfaceConfig, w: WirePort) {
    && w.name == p.name && w.adminState == (match p.adminState case Up => 1 case Down => 2) && w.description == p.description
    && w.mode.Some? && ModeOnWire(p.mode, w.mode.value)
  }

  predicate RuleOnWire(r: AclRule, w: WireRule) {
    && w.sequence == r.sequence && w.action == (match r.action case Permit => 1 case Deny => 2)
    && w.protocol == (match r.protocol case Ip => 1 case Tcp => 2 case Udp => 3 case Icmp => 4)
    && w.source == r.source && w.destination == r.destination
    && SameNumber(r.sourcePort, w.sourcePort) && SameNumber(r.destinationPort, w.destinationPort)
    && w.description == r.description
  }

  ghost predicate RulesOnWire(rs: seq<AclRule>, ws: seq<WireRule>) {
    |ws| == |rs| && forall n :: 0 <= n < |rs| ==> RuleOnWire(rs[n], ws[n])
  }

  /** The kind is written as a number; any number that is no kind leaves it to the range of the ACL number. */
  ghost predicate AclOnWire(a: AclConfig, w: WireAcl) {
    && w.aclId == a.aclId && w.name == a.name && w.description == a.description && RulesOnWire(a.rules, w.rules)
    && w.kind != (match a.kind case AdvancedIpv4 => 2 case BasicIpv4 => 1)
  }

  predicate BindingOnWire(b: AclBinding, w: WireBinding) {
    && w.interfaceName == b.interfaceName && w.direction == (match b.direction case Inbound => 1 case Outbound => 2)
    && w.aclId == b.aclId
  }

  predicate ProcessOnWire(p: BgpProcess, w: WireProcess) {
    w.vrf == p.vrf && w.localAs == p.localAs && w.routerId == p.routerId
  }

  predicate NeighborOnWire(n: BgpNeighbor, w: WireNeighbor) {
    && w.vrf == n.vrf && w.address == n.address && w.remoteAs == n.remoteAs && w.description == n.description
    && w.importPolicy == n.importPolicy && w.exportPolicy == n.exportPolicy
  }

  // ---- What is sound enough to be read ----

  predicate SoundMatch(e: Option<AclEndpoint>) { e.Some? ==> !AllSpace(e.value.address) && !AllSpace(e.value.wildcard) }

  predicate SoundRule(r: AclRule) {
    SoundMatch(r.source) && SoundMatch(r.destination) && r.sourcePort != Some(0) && r.destinationPort != Some(0)
  }

  predicate SoundAcl(a: AclConfig) {
    && (a.kind.AdvancedIpv4? ==> 3000 <= a.aclId <= 3999) && (a.kind.BasicIpv4? ==> 2000 <= a.aclId <= 2999)
    && forall n :: 0 <= n < |a.rules| ==> SoundRule(a.rules[n])
  }

  // ---- Writing gives the wire form ----

  lemma WritesTheWireForm()
    ensures forall v :: VlanOnWire(v, EncodeVlan(v))
    ensures forall p :: PortOnWire(p, EncodePort(p))
    ensures forall r :: RuleOnWire(r, EncodeRule(r))
    ensures forall a :: AclOnWire(a, EncodeAcl(a)) && EncodeAcl(a).kind == (match a.kind case AdvancedIpv4 => 1 case BasicIpv4 => 2)
    ensures forall b :: BindingOnWire(b, EncodeBinding(b))
    ensures forall p :: ProcessOnWire(p, EncodeProcess(p))
    ensures forall n :: NeighborOnWire(n, EncodeNeighbor(n))
  {
  }

  // ---- Reading accepts exactly the wire forms of sound objects ----

  lemma VlanIsRead(w: WireVlan, v: VlanConfig)
    ensures DecodeVlan(w) == Ok(v) <==> VlanOnWire(v, w) && 1 <= v.vlanId <= 4094
  {
  }

  lemma {:induction false} VlanListIsRead(ws: seq<u32>, vs: seq<u16>)
    ensures DecodeVlanList(ws) == Ok(vs) <==> |ws| == |vs| && forall n :: 0 <= n < |vs| ==> ws[n] == vs[n]
  {
    if ws != [] && vs != [] {
      var m, n := |ws| - 1, |vs| - 1;
      VlanListIsRead(ws[..m], vs[..n]);
      assert vs == vs[..n] + [vs[n]];
      if DecodeVlanList(ws) == Ok(vs) {
        assert DecodeVlanList(ws[..m]).Ok? && DecodeVlanList(ws[..m]).value == vs[..n];
      }
    }
  }

  lemma ModeIsRead(w: WireMode, m: PortMode)
    ensures DecodeMode(w) == Ok(m) <==> ModeOnWire(m, w)
  {
    if m.Trunk? {
      VlanListIsRead(w.allowedVlans, m.allowedVlans);
    }
  }

  lemma PortIsRead(w: WirePort, p: InterfaceConfig)
    ensures DecodePort(w) == Ok(p) <==> PortOnWire(p, w)
  {
    if w.mode.Some? {
      ModeIsRead(w.mode.value, p.mode);
    }
  }

  lemma MatchIsSound(e: Option<AclEndpoint>)
    ensures SoundMatch(e) <==> EndpointReadable(e)
  {
    if e.Some? {
      BlankIsTrimmedAway(e.value.address);
      BlankIsTrimmedAway(e.value.wildcard);
    }
  }

  lemma RuleIsRead(w: WireRule, r: AclRule)
    ensures DecodeRule(w) == Ok(r) <==> RuleOnWire(r, w) && SoundRule(r)
  {
    MatchIsSound(w.source);
    MatchIsSound(w.destination);
  }

  lemma {:induction false} RulesAreRead(ws: seq<WireRule>, rs: seq<AclRule>)
    ensures DecodeRules(ws) == Ok(rs) <==> RulesOnWire(rs, ws) && forall n :: 0 <= n < |rs| ==> SoundRule(rs[n])
  {
    if ws != [] && rs != [] {
      var m, n := |ws| - 1, |rs| - 1;
      RulesAreRead(ws[..m], rs[..n]);
      RuleIsRead(ws[m], rs[n]);
      assert rs == rs[..n] + [rs[n]];
      if DecodeRules(ws) == Ok(rs) {
        assert DecodeRules(ws[..m]).Ok? && DecodeRules(ws[..m]).value == rs[..n] && DecodeRule(ws[m]) == Ok(rs[n]);
      }
    }
  }

  lemma AclIsRead(w: WireAcl, a: AclConfig)
    ensures DecodeAcl(w) == Ok(a) <==> AclOnWire(a, w) && SoundAcl(a)
  {
    RulesAreRead(w.rules, a.rules);
  }

  lemma BindingIsRead(w: WireBinding, b: AclBinding)
    ensures DecodeBinding(w) == Ok(b) <==> BindingOnWire(b, w) && !AllSpace(b.interfaceName) && 2000 <= b.aclId <= 3999
  {
    BlankIsTrimmedAway(w.interfaceName);
  }

  lemma ProcessIsRead(w: WireProcess, p: BgpProcess)
    ensures DecodeProcess(w) == Ok(p) <==> ProcessOnWire(p, w) && !AllSpace(p.vrf) && p.localAs != 0
  {
    BlankIsTrimmedAway(w.vrf);
  }

  lemma NeighborIsRead(w: WireNeighbor, n: BgpNeighbor)
    ensures DecodeNeighbor(w) == Ok(n) <==> NeighborOnWire(n, w) && !AllSpace(n.vrf) && !AllSpace(n.address) && n.remoteAs != 0
  {
    BlankIsTrimmedAway(w.vrf);
    BlankIsTrimmedAway(w.address);
  }
}
