/** What validation promises about the objects of a planned, normalised state. */
module PlannedParts {
  import opened Ordering
  import opened Text
  import opened Journal
  import opened ConfigModel
  import opened Normalize
  import opened Objects
  import opened Intents
  import opened Faults
  import opened Diff
  import opened DomainPlan
  import opened PlannedStates

  // ---- Where each kind of wanted object comes from ----

  lemma WantedVlanAt(i: Intent, e: DeviceId, id: u16) returns (v: VlanConfig)
    requires id in NormalVlans(StateFor(i, e).vlans)
    ensures v in i.vlans && v.vlanId == id && NormalVlans(StateFor(i, e).vlans)[id] == NormalVlan(v)
  {
    U16sAreOrdered();
    var src := RebuildAt(U16Le, StateFor(i, e).vlans, NormalVlan, VlanKeyOf, id);
    CollectedHolds(i.vlans, VlanKeyOf);
    v := StateFor(i, e).vlans[src];
  }

  lemma WantedPortAt(i: Intent, e: DeviceId, n: string) returns (p: On<InterfaceConfig>)
    requires n in NormalInterfaces(StateFor(i, e).interfaces)
    ensures p in i.interfaces && NormalInterfaces(StateFor(i, e).interfaces)[n] == NormalInterface(p.item)
  {
    StringLeTotal();
    var src := RebuildAt(StringLe, StateFor(i, e).interfaces, NormalInterface, InterfaceKeyOf, n);
    var x := GatheredAt(i.interfaces, Routes(i.members), e, InterfaceKeyOf, Same<InterfaceConfig>, src);
    p := i.interfaces[x];
  }

  lemma WantedAclAt(i: Intent, e: DeviceId, id: u16) returns (a: AclConfig)
    requires id in NormalAcls(StateFor(i, e).acls)
    ensures a in i.acls && a.aclId == id && NormalAcls(StateFor(i, e).acls)[id] == NormalAcl(a)
  {
    U16sAreOrdered();
    var src := RebuildAt(U16Le, StateFor(i, e).acls, NormalAcl, AclKeyOf, id);
    CollectedHolds(i.acls, AclKeyOf);
    a := StateFor(i, e).acls[src];
  }

  lemma WantedProcessAt(i: Intent, e: DeviceId, v: string) returns (p: On<BgpProcess>)
    requires v in NormalProcesses(StateFor(i, e).processes)
    ensures p in i.processes && NormalProcesses(StateFor(i, e).processes)[v] == NormalProcess(p.item)
  {
    StringLeTotal();
    var src := RebuildAt(StringLe, StateFor(i, e).processes, NormalProcess, ProcessKeyOf, v);
    var x := GatheredAt(i.processes, Routes(i.members), e, ProcessKeyOf, Same<BgpProcess>, src);
    p := i.processes[x];
  }

  lemma WantedNeighborAt(i: Intent, e: DeviceId, k: string) returns (n: On<BgpNeighbor>)
    requires k in NormalNeighbors(StateFor(i, e).neighbors)
    ensures n in i.neighbors && NormalNeighbors(StateFor(i, e).neighbors)[k] == NormalNeighbor(n.item)
  {
    StringLeTotal();
    var src := RebuildAt(StringLe, StateFor(i, e).neighbors, NormalNeighbor, NeighborKeyOf, k);
    var x := GatheredAt(i.neighbors, Routes(i.members), e, NeighborKeyOf, Same<BgpNeighbor>, src);
    n := i.neighbors[x];
  }

  // ---- VLANs ----

  lemma DeclaredIsWanted(i: Intent, e: DeviceId, id: u16)
    requires Declared(i, id)
    ensures id in NormalVlans(StateFor(i, e).vlans)
  {
    var vlans: map<u16, VlanConfig> := StateFor(i, e).vlans;
    var v :| v in i.vlans && v.vlanId == id;
    var n :| 0 <= n < |i.vlans| && i.vlans[n] == v;
    CollectedHolds(i.vlans, VlanKeyOf);
    assert VlanKeyOf(i.vlans[n]) in vlans;
    U16sAreOrdered();
    RebuildHolds(U16Le, vlans, NormalVlan, VlanKeyOf);
    assert VlanKeyOf(NormalVlan(vlans[id])) in NormalVlans(vlans);
  }

  lemma NormalModeNamesTheSame(m: PortMode, v: u16)
    ensures Names(NormalMode(m), v) <==> Names(m, v)
  {
  }

  /** In a planned state every VLAN that a wanted interface names, as access, native or allowed VLAN, is wanted
      and not dropped, and a trunk names at least one. */
  lemma PlannedPortsNameVlans(i: Intent, e: DeviceId, n: string)
    requires Valid(i) && n in NormalDesired(StateFor(i, e)).interfaces
    ensures var d := NormalDesired(StateFor(i, e));
            && (forall v :: Names(d.interfaces[n].mode, v) ==> v in d.vlans && v !in d.deleteVlans)
            && exists v :: Names(d.interfaces[n].mode, v)
  {
    var p := WantedPortAt(i, e, n);
    ValidExactlyWithoutFault(i);
    assert !BadPort(i, p) && !BadMode(i, p.item.mode);
    forall v | Names(NormalMode(p.item.mode), v) ensures v in NormalVlans(StateFor(i, e).vlans) && v !in StateFor(i, e).deleteVlans {
      NormalModeNamesTheSame(p.item.mode, v);
      DeclaredIsWanted(i, e, v);
      PlannedVlansAreSeparate(i, e, v);
    }
    var v := SomeVlan(p.item.mode);
    NormalModeNamesTheSame(p.item.mode, v);
  }

  lemma SomeVlan(m: PortMode) returns (v: u16)
    requires !(m.Trunk? && m.nativeVlan.None? && m.allowedVlans == [])
    ensures Names(m, v)
  {
    match m
    case Access(id) => v := id;
    case Trunk(native, allowed) => v := if native.Some? then native.value else allowed[0];
  }

  // ---- Every wanted object ----

  /** The object is one a device can be given. */
  ghost predicate WellFormed(o: Obj) {
    match o
    case VlanObj(v) => !BadVlan(v.vlanId)
    case InterfaceObj(p) => p.name != ""
    case AclObj(a) => !BadAcl(a)
    case BindingObj(b) => b.interfaceName != "" && !BadAclId(b.aclId)
    case ProcessObj(p) => p.vrf != "" && p.localAs != 0
    case NeighborObj(n) => n.vrf != "" && !BadAddress(n.address) && n.remoteAs != 0
  }

  lemma NameStaysVisible(name: string)
    requires !AllSpace(name)
    ensures CanonicalName(name) != "" && Trim(name) != ""
  {
    BlankIsTrimmedAway(name);
  }

  lemma VlanIsWellFormed(i: Intent, e: DeviceId, id: u16)
    requires !VlanFault(i) && id in NormalVlans(StateFor(i, e).vlans)
    ensures !BadVlan(NormalVlans(StateFor(i, e).vlans)[id].vlanId)
  {
    var v := WantedVlanAt(i, e, id);
  }

  lemma PortIsWellFormed(i: Intent, e: DeviceId, n: string)
    requires !PortFault(i) && n in NormalInterfaces(StateFor(i, e).interfaces)
    ensures NormalInterfaces(StateFor(i, e).interfaces)[n].name != ""
  {
    var p := WantedPortAt(i, e, n);
    assert !BadPort(i, p);
    NameStaysVisible(p.item.name);
  }

  lemma NormalAclIsWellFormed(a: AclConfig)
    requires !BadAcl(a)
    ensures !BadAcl(NormalAcl(a))
  {
    var rs, ns := a.rules, NormalRules(a.rules);
    var each := seq(|rs|, j requires 0 <= j < |rs| => NormalRule(rs[j]));
    SortPutsInSequence(each);
    forall r | r in ns ensures !BadRule(a.kind, r) {
      assert r in multiset(ns) && r in each;
      var j :| 0 <= j < |rs| && each[j] == r;
      assert rs[j] in rs;
    }
    if m, n :| 0 <= m < n < |ns| && ns[m].sequence == ns[n].sequence {
      RuleNumbersStayApart(each, ns, m, n);
    }
  }

  /** Rearranging rules does not repeat a number that was not repeated. */
  lemma RuleNumbersStayApart(each: seq<AclRule>, sorted: seq<AclRule>, m: nat, n: nat)
    requires multiset(sorted) == multiset(each) && m < n < |sorted| && sorted[m].sequence == sorted[n].sequence
    ensures exists x, y :: 0 <= x < y < |each| && each[x].sequence == each[y].sequence
  {
    if sorted[m] == sorted[n] {
      TwiceInMultiset(sorted, m, n);
      TwiceInSequence(each, sorted[m]);
    } else {
      assert sorted[m] in multiset(each) && sorted[n] in multiset(each);
      var x :| 0 <= x < |each| && each[x] == sorted[m];
      var y :| 0 <= y < |each| && each[y] == sorted[n];
      assert x < y || y < x;
    }
  }

  lemma TwiceInMultiset(rs: seq<AclRule>, m: nat, n: nat)
    requires m < n < |rs| && rs[m] == rs[n]
    ensures multiset(rs)[rs[m]] >= 2
  {
    assert rs == rs[..n] + [rs[n]] + rs[n + 1..];
    assert rs[m] in rs[..n];
    assert multiset(rs) == multiset(rs[..n]) + multiset{rs[n]} + multiset(rs[n + 1..]);
  }

  lemma {:induction false} TwiceInSequence(rs: seq<AclRule>, r: AclRule)
    requires multiset(rs)[r] >= 2
    ensures exists m, n :: 0 <= m < n < |rs| && rs[m] == r && rs[n] == r
  {
    assert rs == [rs[0]] + rs[1..];
    if rs[0] == r {
      assert multiset(rs) == multiset{rs[0]} + multiset(rs[1..]);
      assert r in rs[1..];
      var n :| 0 <= n < |rs[1..]| && rs[1..][n] == r;
      assert rs[n + 1] == r;
    } else {
      TwiceInSequence(rs[1..], r);
      var m, n :| 0 <= m < n < |rs[1..]| && rs[1..][m] == r && rs[1..][n] == r;
      assert rs[m + 1] == r && rs[n + 1] == r;
    }
  }

  lemma AclIsWellFormed(i: Intent, e: DeviceId, id: u16)
    requires !AclFault(i) && id in NormalAcls(StateFor(i, e).acls)
    ensures !BadAcl(NormalAcls(StateFor(i, e).acls)[id])
  {
    var a := WantedAclAt(i, e, id);
    NormalAclIsWellFormed(a);
  }

  lemma BindingIsWellFormed(i: Intent, e: DeviceId, b: string)
    requires !AclFault(i) && !BindingFault(i) && b in NormalDesired(StateFor(i, e)).bindings
    ensures WellFormed(BindingObj(NormalDesired(StateFor(i, e)).bindings[b]))
  {
    var n := WantedBindingAt(i, e, b);
    var x := i.bindings[n];
    assert x in i.bindings && !BadBinding(i, x);
    NameStaysVisible(x.item.interfaceName);
    var a :| a in i.acls && a.aclId == x.item.aclId;
    assert !BadAcl(a);
  }

  lemma ProcessIsWellFormed(i: Intent, e: DeviceId, v: string)
    requires !ProcessFault(i) && v in NormalProcesses(StateFor(i, e).processes)
    ensures WellFormed(ProcessObj(NormalProcesses(StateFor(i, e).processes)[v]))
  {
    var p := WantedProcessAt(i, e, v);
    assert !BadProcess(i, p);
    NameStaysVisible(p.item.vrf);
  }

  lemma NeighborIsWellFormed(i: Intent, e: DeviceId, k: string)
    requires !NeighborFault(i) && k in NormalNeighbors(StateFor(i, e).neighbors)
    ensures WellFormed(NeighborObj(NormalNeighbors(StateFor(i, e).neighbors)[k]))
  {
    var n := WantedNeighborAt(i, e, k);
    assert !BadNeighbor(i, n);
    NameStaysVisible(n.item.vrf);
  }

  /** Every object of the state planned for a valid request is well formed: VLAN and ACL numbers in range, rules
      sound and numbered apart, names not empty, AS numbers not zero, addresses IPv4. */
  lemma PlannedObjectsAreWellFormed(i: Intent, e: DeviceId, k: ObjKey)
    requires Valid(i) && Wanted(NormalDesired(StateFor(i, e)), k).Some?
    ensures WellFormed(Wanted(NormalDesired(StateFor(i, e)), k).value)
  {
    ValidExactlyWithoutFault(i);
    match k
    case VlanKey(id) => VlanIsWellFormed(i, e, id);
    case InterfaceKey(n) => PortIsWellFormed(i, e, n);
    case AclKey(id) => AclIsWellFormed(i, e, id);
    case BindingKey(b) => BindingIsWellFormed(i, e, b);
    case ProcessKey(v) => ProcessIsWellFormed(i, e, v);
    case NeighborKey(n) => NeighborIsWellFormed(i, e, n);
  }
}
