/** When the state planned for an endpoint asks for an object and its removal at once. */
module Clashes {
  import opened Wrappers
  import opened Ordering
  import opened Text
  import opened Journal
  import opened ConfigModel
  import opened Normalize
  import opened Objects
  import opened Intents
  import opened Diff
  import opened Convergence
  import opened DomainPlan
  import opened PlannedStates

  // ---- Keys tell their parts apart ----

  lemma BindingKeysDiffer(n: string, dir: AclDirection, n': string, dir': AclDirection)
    requires AclBindingKey(n, dir) == AclBindingKey(n', dir')
    ensures n == n' && dir == dir'
  {
    var k := AclBindingKey(n, dir);
    var at := |k| - |"|inbound"|;
    assert dir.Inbound? ==> k[at] == '|';
    assert dir.Outbound? ==> k[at] == 'o';
    assert dir'.Inbound? ==> k[at] == '|';
    assert dir'.Outbound? ==> k[at] == 'o';
    assert n == k[..|n|] && n' == k[..|n'|];
  }

  lemma NeighborKeysDiffer(v: string, a: string, v': string, a': string)
    requires BgpNeighborKey(v, a) == BgpNeighborKey(v', a') && '|' !in a && '|' !in a'
    ensures v == v' && a == a'
  {
    var k := BgpNeighborKey(v, a);
    assert forall j :: |v| < j < |k| ==> k[j] == a[j - |v| - 1];
    assert forall j :: |v'| < j < |k| ==> k[j] == a'[j - |v'| - 1];
    assert k[|v|] == '|' && k[|v'|] == '|';
    assert |v| == |v'|;
    assert v == k[..|v|] && v' == k[..|v'|];
    assert a == k[|v| + 1..] && a' == k[|v'| + 1..];
  }

  lemma AddressHasNoBar(address: string)
    requires IsIpv4(Trim(address))
    ensures '|' !in address && '|' !in Trim(address)
  {
    Ipv4IsDigitsAndDots(Trim(address));
    if '|' in address { TrimKeeps(address, '|'); }
  }

  // ---- Parts of a request that meet on one endpoint ----

  function PortName(p: InterfaceConfig): string { CanonicalName(p.name) }
  function BindName(b: AclBinding): string { BindingKeyOf(NormalBinding(b)) }
  function ProcessName(p: BgpProcess): string { Trim(p.vrf) }
  function NeighborName(n: BgpNeighbor): string { NeighborKeyOf(NormalNeighbor(n)) }
  function NeighborVrf(n: BgpNeighbor): string { Trim(n.vrf) }
  function GonePeerName(p: Peer): string { NeighborName(PeerRecord(p)) }

  /** Some part wanted on the endpoint and some part dropped there have the same normalised name. */
  ghost predicate Meet<A, B>(wanted: seq<On<A>>, dropped: seq<On<B>>, routes: map<DeviceId, DeviceId>, e: DeviceId,
                             name: A -> string, gone: B -> string) {
    exists m, n :: && 0 <= m < |wanted| && 0 <= n < |dropped| && RoutedTo(routes, wanted[m].device, e)
                   && RoutedTo(routes, dropped[n].device, e) && name(wanted[m].item) == gone(dropped[n].item)
  }

  /** No part for the endpoint is both wanted and dropped, and no neighbour is wanted in a dropped process. */
  ghost predicate NoClash(i: Intent, e: DeviceId) {
    var routes := Routes(i.members);
    && !Meet(i.interfaces, i.deleteInterfaces, routes, e, PortName, CanonicalName)
    && !Meet(i.bindings, i.deleteBindings, routes, e, BindName, BindName)
    && !Meet(i.processes, i.deleteProcesses, routes, e, ProcessName, Trim)
    && !Meet(i.neighbors, i.deleteNeighbors, routes, e, NeighborName, GonePeerName)
    && !Meet(i.neighbors, i.deleteProcesses, routes, e, NeighborVrf, Trim)
  }

  /** The names a list of parts for an endpoint gives. */
  ghost predicate Given<A>(items: seq<On<A>>, routes: map<DeviceId, DeviceId>, e: DeviceId, name: A -> string, x: string) {
    exists n :: 0 <= n < |items| && RoutedTo(routes, items[n].device, e) && name(items[n].item) == x
  }

  lemma MeetIsShared<A, B>(wanted: seq<On<A>>, dropped: seq<On<B>>, routes: map<DeviceId, DeviceId>, e: DeviceId,
                           name: A -> string, gone: B -> string)
    ensures Meet(wanted, dropped, routes, e, name, gone)
       <==> exists x :: Given(wanted, routes, e, name, x) && Given(dropped, routes, e, gone, x)
  {
    if m, n :| && 0 <= m < |wanted| && 0 <= n < |dropped| && RoutedTo(routes, wanted[m].device, e)
               && RoutedTo(routes, dropped[n].device, e) && name(wanted[m].item) == gone(dropped[n].item) {
      var x := name(wanted[m].item);
      assert Given(wanted, routes, e, name, x) && Given(dropped, routes, e, gone, x);
    }
    if x :| Given(wanted, routes, e, name, x) && Given(dropped, routes, e, gone, x) {
      var m :| 0 <= m < |wanted| && RoutedTo(routes, wanted[m].device, e) && name(wanted[m].item) == x;
      var n :| 0 <= n < |dropped| && RoutedTo(routes, dropped[n].device, e) && gone(dropped[n].item) == x;
    }
  }

  /** Normalising a gathered map gives exactly the given names, when equal keys mean equal names. */
  lemma NamesOfGathered<T, V>(items: seq<On<T>>, routes: map<DeviceId, DeviceId>, e: DeviceId, key: T -> string,
                              value: T -> V, norm: V -> V, keyOf: V -> string, name: T -> string, x: string)
    requires forall n :: 0 <= n < |items| ==> keyOf(norm(value(items[n].item))) == name(items[n].item)
    requires forall m, n :: 0 <= m < |items| && 0 <= n < |items| && key(items[m].item) == key(items[n].item)
               ==> name(items[m].item) == name(items[n].item)
    requires TotalOrder(StringLe)
    ensures x in Rebuild(StringLe, Gathered(items, routes, e, key, value), norm, keyOf) <==> Given(items, routes, e, name, x)
  {
    var m := Gathered(items, routes, e, key, value);
    if x in Rebuild(StringLe, m, norm, keyOf) {
      var src := RebuildAt(StringLe, m, norm, keyOf, x);
      var n := GatheredAt(items, routes, e, key, value, src);
    }
    if Given(items, routes, e, name, x) {
      var n :| 0 <= n < |items| && RoutedTo(routes, items[n].device, e) && name(items[n].item) == x;
      GatheredReaches(items, routes, e, key, value, n);
      var k := key(items[n].item);
      var l := GatheredAt(items, routes, e, key, value, k);
      assert name(items[l].item) == name(items[n].item);
      RebuildHolds(StringLe, m, norm, keyOf);
      assert keyOf(norm(m[k])) in Rebuild(StringLe, m, norm, keyOf);
    }
  }

  lemma PortNames(i: Intent, e: DeviceId, x: string)
    ensures x in NormalInterfaces(StateFor(i, e).interfaces) <==> Given(i.interfaces, Routes(i.members), e, PortName, x)
  {
    StringLeTotal();
    NamesOfGathered(i.interfaces, Routes(i.members), e, InterfaceKeyOf, Same<InterfaceConfig>, NormalInterface,
                    InterfaceKeyOf, PortName, x);
  }

  lemma BindNames(items: seq<On<AclBinding>>, routes: map<DeviceId, DeviceId>, e: DeviceId, x: string)
    ensures x in NormalBindings(Gathered(items, routes, e, BindingKeyOf, Same<AclBinding>)) <==> Given(items, routes, e, BindName, x)
  {
    StringLeTotal();
    forall m, n | 0 <= m < |items| && 0 <= n < |items| && BindingKeyOf(items[m].item) == BindingKeyOf(items[n].item)
      ensures BindName(items[m].item) == BindName(items[n].item)
    {
      BindingKeysDiffer(items[m].item.interfaceName, items[m].item.direction,
                        items[n].item.interfaceName, items[n].item.direction);
    }
    NamesOfGathered(items, routes, e, BindingKeyOf, Same<AclBinding>, NormalBinding, BindingKeyOf, BindName, x);
  }

  lemma ProcessNames(i: Intent, e: DeviceId, x: string)
    ensures x in NormalProcesses(StateFor(i, e).processes) <==> Given(i.processes, Routes(i.members), e, ProcessName, x)
  {
    StringLeTotal();
    NamesOfGathered(i.processes, Routes(i.members), e, ProcessKeyOf, Same<BgpProcess>, NormalProcess,
                    ProcessKeyOf, ProcessName, x);
  }

  lemma NeighborNames(i: Intent, e: DeviceId, x: string)
    requires NeighborsOk(i)
    ensures x in NormalNeighbors(StateFor(i, e).neighbors) <==> Given(i.neighbors, Routes(i.members), e, NeighborName, x)
  {
    StringLeTotal();
    var items := i.neighbors;
    forall m, n | 0 <= m < |items| && 0 <= n < |items| && NeighborKeyOf(items[m].item) == NeighborKeyOf(items[n].item)
      ensures NeighborName(items[m].item) == NeighborName(items[n].item)
    {
      assert NeighborOk(MemberIds(i), GoneProcesses(i), items[m]) && NeighborOk(MemberIds(i), GoneProcesses(i), items[n]);
      AddressHasNoBar(items[m].item.address);
      AddressHasNoBar(items[n].item.address);
      NeighborKeysDiffer(items[m].item.vrf, items[m].item.address, items[n].item.vrf, items[n].item.address);
    }
    NamesOfGathered(items, Routes(i.members), e, NeighborKeyOf, Same<BgpNeighbor>, NormalNeighbor,
                    NeighborKeyOf, NeighborName, x);
  }

  lemma GonePeerNames(i: Intent, e: DeviceId, x: string)
    requires NeighborsOk(i)
    ensures x in NormalNeighbors(StateFor(i, e).deleteNeighbors)
       <==> Given(i.deleteNeighbors, Routes(i.members), e, GonePeerName, x)
  {
    StringLeTotal();
    var items := i.deleteNeighbors;
    forall m, n | 0 <= m < |items| && 0 <= n < |items| && PeerKeyOf(items[m].item) == PeerKeyOf(items[n].item)
      ensures GonePeerName(items[m].item) == GonePeerName(items[n].item)
    {
      assert NeighborDeleteOk(MemberIds(i), NeighborIds(i), items[m]) && NeighborDeleteOk(MemberIds(i), NeighborIds(i), items[n]);
      AddressHasNoBar(items[m].item.address);
      AddressHasNoBar(items[n].item.address);
      NeighborKeysDiffer(items[m].item.vrf, items[m].item.address, items[n].item.vrf, items[n].item.address);
    }
    NamesOfGathered(items, Routes(i.members), e, PeerKeyOf, PeerRecord, NormalNeighbor, NeighborKeyOf, GonePeerName, x);
  }

  lemma GoneNames(items: seq<On<string>>, routes: map<DeviceId, DeviceId>, e: DeviceId, norm: string -> string, x: string)
    ensures (exists y :: y in GatheredSet(items, routes, e) && norm(y) == x) <==> Given(items, routes, e, norm, x)
  {
    if y :| y in GatheredSet(items, routes, e) && norm(y) == x {
      var n := GatheredSetAt(items, routes, e, y);
    }
    if n :| 0 <= n < |items| && RoutedTo(routes, items[n].device, e) && norm(items[n].item) == x {
      GatheredSetReaches(items, routes, e, n);
    }
  }

  lemma SameNameSameVrf(i: Intent, m: nat, n: nat)
    requires NeighborsOk(i) && m < |i.neighbors| && n < |i.neighbors|
    requires NeighborName(i.neighbors[m].item) == NeighborName(i.neighbors[n].item)
    ensures NeighborVrf(i.neighbors[m].item) == NeighborVrf(i.neighbors[n].item)
  {
    var x, y := i.neighbors[m], i.neighbors[n];
    assert NeighborOk(MemberIds(i), GoneProcesses(i), x) && NeighborOk(MemberIds(i), GoneProcesses(i), y);
    AddressHasNoBar(x.item.address);
    AddressHasNoBar(y.item.address);
    NeighborKeysDiffer(Trim(x.item.vrf), Trim(x.item.address), Trim(y.item.vrf), Trim(y.item.address));
  }

  lemma NeighborVrfIsWanted(i: Intent, e: DeviceId, n: nat) returns (y: string)
    requires NeighborsOk(i) && n < |i.neighbors| && RoutedTo(Routes(i.members), i.neighbors[n].device, e)
    ensures y in NormalNeighbors(StateFor(i, e).neighbors)
    ensures NormalNeighbors(StateFor(i, e).neighbors)[y].vrf == NeighborVrf(i.neighbors[n].item)
  {
    y := NeighborName(i.neighbors[n].item);
    assert Given(i.neighbors, Routes(i.members), e, NeighborName, y);
    NeighborNames(i, e, y);
    var l := NeighborAt(i, e, y);
    SameNameSameVrf(i, l, n);
  }

  /** The processes of wanted neighbours are those the request gives. */
  lemma NeighborVrfs(i: Intent, e: DeviceId, v: string)
    requires NeighborsOk(i)
    ensures var peers := NormalNeighbors(StateFor(i, e).neighbors);
            (exists y :: y in peers && peers[y].vrf == v) <==> Given(i.neighbors, Routes(i.members), e, NeighborVrf, v)
  {
    var peers := NormalNeighbors(StateFor(i, e).neighbors);
    if y :| y in peers && peers[y].vrf == v {
      var n := NeighborAt(i, e, y);
    }
    if n :| && 0 <= n < |i.neighbors| && RoutedTo(Routes(i.members), i.neighbors[n].device, e)
            && NeighborVrf(i.neighbors[n].item) == v {
      var y := NeighborVrfIsWanted(i, e, n);
    }
  }

  lemma NeighborAt(i: Intent, e: DeviceId, y: string) returns (n: nat)
    requires y in NormalNeighbors(StateFor(i, e).neighbors)
    ensures n < |i.neighbors| && RoutedTo(Routes(i.members), i.neighbors[n].device, e)
    ensures NormalNeighbor(i.neighbors[n].item) == NormalNeighbors(StateFor(i, e).neighbors)[y]
    ensures NeighborName(i.neighbors[n].item) == y
  {
    StringLeTotal();
    var m := StateFor(i, e).neighbors;
    var src := RebuildAt(StringLe, m, NormalNeighbor, NeighborKeyOf, y);
    n := GatheredAt(i.neighbors, Routes(i.members), e, NeighborKeyOf, Same<BgpNeighbor>, src);
  }

  // ---- Separate, kind by kind ----

  ghost predicate BaseSeparate(d: Desired) {
    && (forall x :: x in d.vlans ==> x !in d.deleteVlans)
    && (forall x :: x in d.acls ==> x !in d.deleteAcls)
    && (forall x :: x in d.bindings ==> d.bindings[x].aclId !in d.deleteAcls)
  }

  ghost predicate PortClash(d: Desired) { exists x :: x in d.interfaces && x in d.deleteInterfaces }
  ghost predicate BindingClash(d: Desired) { exists x :: x in d.bindings && x in d.deleteBindings }
  ghost predicate ProcessClash(d: Desired) { exists x :: x in d.processes && x in d.deleteProcesses }
  ghost predicate NeighborClash(d: Desired) { exists x :: x in d.neighbors && x in d.deleteNeighbors }
  ghost predicate CarryClash(d: Desired) { exists x :: x in d.neighbors && d.neighbors[x].vrf in d.deleteProcesses }

  lemma SeparateBinding(d: Desired, x: string)
    requires Separate(d) && x in d.bindings
    ensures x !in d.deleteBindings && d.bindings[x].aclId !in d.deleteAcls
  {
    var k, via := BindingKey(x), AclKey(d.bindings[x].aclId);
    assert SeparateAt(d, k) && Carries(via, Wanted(d, k).value);
    assert !Dropped(d, k) && !Dropped(d, via);
  }

  lemma SeparateNeighbor(d: Desired, x: string)
    requires Separate(d) && x in d.neighbors
    ensures x !in d.deleteNeighbors && d.neighbors[x].vrf !in d.deleteProcesses
  {
    var k, via := NeighborKey(x), ProcessKey(d.neighbors[x].vrf);
    assert SeparateAt(d, k) && Carries(via, Wanted(d, k).value);
    assert !Dropped(d, k) && !Dropped(d, via);
  }

  /** The parts of a separate request do not clash. */
  lemma SeparateHasNoClash(d: Desired)
    requires Separate(d)
    ensures BaseSeparate(d) && !PortClash(d) && !BindingClash(d) && !ProcessClash(d) && !NeighborClash(d) && !CarryClash(d)
  {
    forall x | x in d.vlans ensures x !in d.deleteVlans { assert SeparateAt(d, VlanKey(x)); }
    forall x | x in d.acls ensures x !in d.deleteAcls { assert SeparateAt(d, AclKey(x)); }
    forall x | x in d.interfaces ensures x !in d.deleteInterfaces { assert SeparateAt(d, InterfaceKey(x)); }
    forall x | x in d.processes ensures x !in d.deleteProcesses { assert SeparateAt(d, ProcessKey(x)); }
    forall x | x in d.bindings ensures x !in d.deleteBindings && d.bindings[x].aclId !in d.deleteAcls { SeparateBinding(d, x); }
    forall x | x in d.neighbors ensures x !in d.deleteNeighbors && d.neighbors[x].vrf !in d.deleteProcesses { SeparateNeighbor(d, x); }
  }

  lemma SeparateByParts(d: Desired)
    ensures Separate(d) <==> && BaseSeparate(d) && !PortClash(d) && !BindingClash(d) && !ProcessClash(d)
                             && !NeighborClash(d) && !CarryClash(d)
  {
    if Separate(d) {
      SeparateHasNoClash(d);
    }
    if BaseSeparate(d) && !PortClash(d) && !BindingClash(d) && !ProcessClash(d) && !NeighborClash(d) && !CarryClash(d) {
      forall k ensures SeparateAt(d, k) {
      }
    }
  }

  lemma PortsShare(i: Intent, e: DeviceId)
    ensures PortClash(NormalDesired(StateFor(i, e)))
       <==> Meet(i.interfaces, i.deleteInterfaces, Routes(i.members), e, PortName, CanonicalName)
  {
    var routes := Routes(i.members);
    MeetIsShared(i.interfaces, i.deleteInterfaces, routes, e, PortName, CanonicalName);
    forall x ensures x in NormalDesired(StateFor(i, e)).deleteInterfaces <==> Given(i.deleteInterfaces, routes, e, CanonicalName, x) {
      GoneNames(i.deleteInterfaces, routes, e, CanonicalName, x);
    }
    forall x ensures x in NormalDesired(StateFor(i, e)).interfaces <==> Given(i.interfaces, routes, e, PortName, x) {
      PortNames(i, e, x);
    }
  }

  lemma BindingsShare(i: Intent, e: DeviceId)
    ensures BindingClash(NormalDesired(StateFor(i, e)))
       <==> Meet(i.bindings, i.deleteBindings, Routes(i.members), e, BindName, BindName)
  {
    var routes := Routes(i.members);
    MeetIsShared(i.bindings, i.deleteBindings, routes, e, BindName, BindName);
    forall x ensures x in NormalDesired(StateFor(i, e)).bindings <==> Given(i.bindings, routes, e, BindName, x) {
      BindNames(i.bindings, routes, e, x);
    }
    forall x ensures x in NormalDesired(StateFor(i, e)).deleteBindings <==> Given(i.deleteBindings, routes, e, BindName, x) {
      BindNames(i.deleteBindings, routes, e, x);
    }
  }

  lemma GoneProcessNames(i: Intent, e: DeviceId, x: string)
    ensures x in NormalDesired(StateFor(i, e)).deleteProcesses <==> Given(i.deleteProcesses, Routes(i.members), e, Trim, x)
  {
    GoneNames(i.deleteProcesses, Routes(i.members), e, Trim, x);
  }

  lemma ProcessesShare(i: Intent, e: DeviceId)
    ensures ProcessClash(NormalDesired(StateFor(i, e)))
       <==> Meet(i.processes, i.deleteProcesses, Routes(i.members), e, ProcessName, Trim)
  {
    var routes := Routes(i.members);
    MeetIsShared(i.processes, i.deleteProcesses, routes, e, ProcessName, Trim);
    forall x ensures x in NormalDesired(StateFor(i, e)).processes <==> Given(i.processes, routes, e, ProcessName, x) {
      ProcessNames(i, e, x);
    }
    forall x ensures x in NormalDesired(StateFor(i, e)).deleteProcesses <==> Given(i.deleteProcesses, routes, e, Trim, x) {
      GoneProcessNames(i, e, x);
    }
  }

  lemma NeighborsShare(i: Intent, e: DeviceId)
    requires NeighborsOk(i)
    ensures NeighborClash(NormalDesired(StateFor(i, e)))
       <==> Meet(i.neighbors, i.deleteNeighbors, Routes(i.members), e, NeighborName, GonePeerName)
  {
    var routes := Routes(i.members);
    MeetIsShared(i.neighbors, i.deleteNeighbors, routes, e, NeighborName, GonePeerName);
    forall x ensures x in NormalDesired(StateFor(i, e)).neighbors <==> Given(i.neighbors, routes, e, NeighborName, x) {
      NeighborNames(i, e, x);
    }
    forall x ensures x in NormalDesired(StateFor(i, e)).deleteNeighbors <==> Given(i.deleteNeighbors, routes, e, GonePeerName, x) {
      GonePeerNames(i, e, x);
    }
  }

  lemma NeighborsAreCarried(i: Intent, e: DeviceId)
    requires NeighborsOk(i)
    ensures CarryClash(NormalDesired(StateFor(i, e)))
       <==> Meet(i.neighbors, i.deleteProcesses, Routes(i.members), e, NeighborVrf, Trim)
  {
    var routes := Routes(i.members);
    var d := NormalDesired(StateFor(i, e));
    MeetIsShared(i.neighbors, i.deleteProcesses, routes, e, NeighborVrf, Trim);
    forall v ensures (exists x :: x in d.neighbors && d.neighbors[x].vrf == v) <==> Given(i.neighbors, routes, e, NeighborVrf, v) {
      NeighborVrfs(i, e, v);
    }
    forall v ensures v in d.deleteProcesses <==> Given(i.deleteProcesses, routes, e, Trim, v) {
      GoneProcessNames(i, e, v);
    }
    if x :| x in d.neighbors && d.neighbors[x].vrf in d.deleteProcesses {
      assert Given(i.neighbors, routes, e, NeighborVrf, d.neighbors[x].vrf);
    }
  }

  /** VLANs and ACLs are never wanted and dropped at once, and no wanted binding is on a dropped ACL. */
  lemma PlannedBaseIsSeparate(i: Intent, e: DeviceId)
    requires VlansOk(i) && AclsOk(i) && BindingsOk(i)
    ensures BaseSeparate(NormalDesired(StateFor(i, e)))
  {
    var d := NormalDesired(StateFor(i, e));
    forall x | x in d.vlans ensures x !in d.deleteVlans { PlannedVlansAreSeparate(i, e, x); }
    forall x | x in d.acls ensures x !in d.deleteAcls { PlannedAclsAreSeparate(i, e, x); }
    forall x | x in d.bindings ensures d.bindings[x].aclId !in d.deleteAcls { BindingNamesAcl(i, e, x); }
  }

  /** The plan of a valid request asks an endpoint for an object and its removal at once exactly when, on that
      endpoint, a wanted and a dropped part have the same name after normalisation, or a neighbour is wanted
      in a dropped process. Validation alone does not rule this out. */
  lemma PlannedIsSeparateExactlyWhenNoClash(i: Intent, e: DeviceId)
    requires Valid(i)
    ensures Separate(NormalDesired(StateFor(i, e))) <==> NoClash(i, e)
  {
    var d := NormalDesired(StateFor(i, e));
    SeparateByParts(d);
    PlannedBaseIsSeparate(i, e);
    PortsShare(i, e);
    BindingsShare(i, e);
    ProcessesShare(i, e);
    NeighborsShare(i, e);
    NeighborsAreCarried(i, e);
  }

  // ---- Valid requests that clash ----

  function PortRequest(members: seq<Member>, put: On<InterfaceConfig>, drop: On<string>): Intent {
    Intent("dc", StackSingleManagementIp, [Endpoint("sw", "h", 830, "s")], members, [VlanConfig(10, None, None)],
           [put], [], [], [], [drop], [], [], [], [], [], [])
  }

  predicate OneOrTwo(members: seq<Member>) {
    members == [Member("m", "sw")] || members == [Member("m", "sw"), Member("n", "sw")]
  }

  lemma PortRequestShape(members: seq<Member>, put: On<InterfaceConfig>, drop: On<string>)
    requires OneOrTwo(members)
    ensures ShapeOk(PortRequest(members, put, drop))
  {
    var i := PortRequest(members, put, drop);
    assert Endpoint("sw", "h", 830, "s") in i.endpoints;
    assert "sw" in EndpointIds(i);
    assert EndpointOk(i.endpoints[0]);
    assert MemberOk(EndpointIds(i), Member("m", "sw"));
    assert MemberOk(EndpointIds(i), Member("n", "sw"));
  }

  lemma PortRequestParts(members: seq<Member>, put: On<InterfaceConfig>, drop: On<string>)
    requires OneOrTwo(members) && (exists x :: x in members && x.id == drop.device) && PortKey(put) != drop
    requires put.device == "m" && put.item.mode == Access(10) && NotBlank(put.item.name) && NotBlank(drop.item)
    ensures VlansOk(PortRequest(members, put, drop)) && PortsOk(PortRequest(members, put, drop))
  {
    var i := PortRequest(members, put, drop);
    assert Member("m", "sw") in i.members;
    assert "m" in MemberIds(i);
    assert VlanConfig(10, None, None) in i.vlans;
    assert 10 in VlanIds(i);
    assert PortKeys(i) == {PortKey(put)};
  }

  lemma PortRequestIsValid(members: seq<Member>, put: On<InterfaceConfig>, drop: On<string>)
    requires OneOrTwo(members) && (exists x :: x in members && x.id == drop.device) && PortKey(put) != drop
    requires put.device == "m" && put.item.mode == Access(10) && NotBlank(put.item.name) && NotBlank(drop.item)
    ensures Valid(PortRequest(members, put, drop))
  {
    PortRequestShape(members, put, drop);
    PortRequestParts(members, put, drop);
  }

  lemma PortRequestClashes(members: seq<Member>, put: On<InterfaceConfig>, drop: On<string>)
    requires OneOrTwo(members) && (exists x :: x in members && x.id == drop.device) && PortKey(put) != drop
    requires put.device == "m" && put.item.mode == Access(10) && NotBlank(put.item.name) && NotBlank(drop.item)
    requires CanonicalName(put.item.name) == CanonicalName(drop.item)
    ensures var i := PortRequest(members, put, drop);
            Valid(i) && !Separate(NormalDesired(StateFor(i, "sw")))
  {
    var i := PortRequest(members, put, drop);
    PortRequestIsValid(members, put, drop);
    assert Member("m", "sw") in i.members && Member(drop.device, "sw") in i.members;
    MembersAreRoutes(i.members, "m", "sw");
    MembersAreRoutes(i.members, drop.device, "sw");
    assert PortName(i.interfaces[0].item) == CanonicalName(i.deleteInterfaces[0].item);
    PlannedIsSeparateExactlyWhenNoClash(i, "sw");
  }

  lemma ShortNames()
    ensures CanonicalName("GigabitEthernet1") == CanonicalName("GE1") && NotBlank("GigabitEthernet1") && NotBlank("GE1")
  {
    TrimmedStays("GigabitEthernet1");
    TrimmedStays("GE1");
    assert "GigabitEthernet" <= "GigabitEthernet1";
    assert "GigabitEthernet1"[15..] == "1";
    assert CanonicalName("GigabitEthernet1") == "GE1";
  }

  /** A long and a short spelling of one interface, and one interface of two members behind one endpoint:
      both requests are valid, and both plans want and drop the same interface. */
  lemma ValidRequestsCanClash()
    ensures var port := InterfaceConfig("GigabitEthernet1", Up, None, Access(10));
            var i := PortRequest([Member("m", "sw")], On("m", port), On("m", "GE1"));
            Valid(i) && !Separate(NormalDesired(StateFor(i, "sw")))
    ensures var port := InterfaceConfig("GE1", Up, None, Access(10));
            var i := PortRequest([Member("m", "sw"), Member("n", "sw")], On("m", port), On("n", "GE1"));
            Valid(i) && !Separate(NormalDesired(StateFor(i, "sw")))
  {
    ShortNames();
    var one, two := [Member("m", "sw")], [Member("m", "sw"), Member("n", "sw")];
    assert Member("m", "sw") in one && Member("n", "sw") in two;
    PortRequestClashes(one, On("m", InterfaceConfig("GigabitEthernet1", Up, None, Access(10))), On("m", "GE1"));
    PortRequestClashes(two, On("m", InterfaceConfig("GE1", Up, None, Access(10))), On("n", "GE1"));
  }
}
