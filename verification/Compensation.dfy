/** Retrying the failed part of a domain request: which endpoints, and what is asked of them. */
module Compensation {
  import opened Wrappers
  import opened Ordering
  import opened Journal
  import opened Strategies
  import opened ConfigModel
  import opened Intents
  import opened DomainPlan

  /** The parts whose key is among the selected ones, in their order. */
  function KeptBy<T>(items: seq<T>, key: T -> DeviceId, sel: set<DeviceId>): seq<T> {
    if items == [] then []
    else
      var n := |items| - 1;
      var rest := KeptBy(items[..n], key, sel);
      if key(items[n]) in sel then rest + [items[n]] else rest
  }

  function MemberEndpoint(m: Member): DeviceId { m.endpoint }
  function DeviceOf<T>(x: On<T>): DeviceId { x.device }

  function SelectedMembers(i: Intent, sel: set<DeviceId>): set<DeviceId> {
    set m | m in KeptBy(i.members, MemberEndpoint, sel) :: m.id
  }

  /** The request restricted to the selected endpoints. */
  function Restricted(i: Intent, sel: set<DeviceId>): Intent {
    var endpoints := KeptBy(i.endpoints, EndpointId, sel);
    var members := SelectedMembers(i, sel);
    Intent(
      i.domainId,
      if |endpoints| == 1 then StackSingleManagementIp else i.topology,
      endpoints,
      KeptBy(i.members, MemberEndpoint, sel),
      i.vlans,
      KeptBy(i.interfaces, DeviceOf<InterfaceConfig>, members),
      i.acls,
      KeptBy(i.bindings, DeviceOf<AclBinding>, members),
      i.deleteVlans,
      KeptBy(i.deleteInterfaces, DeviceOf<string>, members),
      i.deleteAcls,
      KeptBy(i.deleteBindings, DeviceOf<AclBinding>, members),
      KeptBy(i.processes, DeviceOf<BgpProcess>, members),
      KeptBy(i.neighbors, DeviceOf<BgpNeighbor>, members),
      KeptBy(i.deleteProcesses, DeviceOf<string>, members),
      KeptBy(i.deleteNeighbors, DeviceOf<Peer>, members))
  }

  // ---- What filtering keeps ----

  lemma {:induction false} KeptHolds<T(!new)>(items: seq<T>, key: T -> DeviceId, sel: set<DeviceId>)
    ensures forall x :: x in KeptBy(items, key, sel) <==> x in items && key(x) in sel
    ensures |KeptBy(items, key, sel)| <= |items|
  {
    if items != [] {
      var n := |items| - 1;
      KeptHolds(items[..n], key, sel);
      assert items == items[..n] + [items[n]];
    }
  }

  lemma {:induction false} KeptIsDistinct<T(!new), K>(items: seq<T>, key: T -> DeviceId, sel: set<DeviceId>, id: T -> K)
    requires Distinct(items, id)
    ensures Distinct(KeptBy(items, key, sel), id)
  {
    if items != [] {
      var n := |items| - 1;
      var front := items[..n];
      KeptIsDistinct(front, key, sel, id);
      KeptHolds(front, key, sel);
      var rest := KeptBy(front, key, sel);
      forall m | 0 <= m < |rest| ensures id(rest[m]) != id(items[n]) {
        assert rest[m] in front;
        var l :| 0 <= l < n && front[l] == rest[m];
        assert items[l] == rest[m];
      }
    }
  }

  lemma {:induction false} KeptIsAscending(xs: seq<DeviceId>, sel: set<DeviceId>)
    requires Ascending(StringLe, xs)
    ensures Ascending(StringLe, KeptBy(xs, Same<DeviceId>, sel))
  {
    if xs != [] {
      var n := |xs| - 1;
      var front := xs[..n];
      KeptIsAscending(front, sel);
      KeptHolds(front, Same<DeviceId>, sel);
      var rest := KeptBy(front, Same<DeviceId>, sel);
      forall m | 0 <= m < |rest| ensures StringLe(rest[m], xs[n]) && rest[m] != xs[n] {
        assert rest[m] in front;
        var l :| 0 <= l < n && front[l] == rest[m];
        assert xs[l] == rest[m];
      }
    }
  }

  // ---- The restricted request is valid ----

  /** The selected endpoints have a switch member between them. */
  ghost predicate HasMember(i: Intent, sel: set<DeviceId>) {
    exists m :: m in i.members && m.endpoint in sel
  }

  lemma RestrictedIds(i: Intent, sel: set<DeviceId>)
    requires sel <= EndpointIds(i)
    ensures EndpointIds(Restricted(i, sel)) == sel
    ensures MemberIds(Restricted(i, sel)) == SelectedMembers(i, sel) <= MemberIds(i)
  {
    KeptHolds(i.endpoints, EndpointId, sel);
    KeptHolds(i.members, MemberEndpoint, sel);
    var r := Restricted(i, sel);
    forall id | id in sel ensures id in EndpointIds(r) {
      assert id in EndpointIds(i);
      var e :| e in i.endpoints && e.id == id;
      assert e in r.endpoints;
    }
  }

  lemma RestrictedShape(i: Intent, sel: set<DeviceId>)
    requires ShapeOk(i) && sel != {} && sel <= EndpointIds(i) && HasMember(i, sel)
    ensures ShapeOk(Restricted(i, sel))
  {
    var r := Restricted(i, sel);
    RestrictedIds(i, sel);
    KeptHolds(i.endpoints, EndpointId, sel);
    KeptHolds(i.members, MemberEndpoint, sel);
    KeptIsDistinct(i.endpoints, EndpointId, sel, EndpointId);
    KeptIsDistinct(i.members, MemberEndpoint, sel, MemberId);
    var id :| id in sel;
    assert id in EndpointIds(r);
    forall n | 0 <= n < |r.endpoints| ensures EndpointOk(r.endpoints[n]) {
      assert r.endpoints[n] in i.endpoints;
    }
    forall n | 0 <= n < |r.members| ensures MemberOk(sel, r.members[n]) {
      assert r.members[n] in r.members && r.members[n] in i.members;
    }
    var m :| m in i.members && m.endpoint in sel;
    assert m in r.members;
  }

  lemma RestrictedPorts(i: Intent, sel: set<DeviceId>)
    requires PortsOk(i) && sel <= EndpointIds(i)
    ensures PortsOk(Restricted(i, sel))
  {
    var r := Restricted(i, sel);
    var ms := SelectedMembers(i, sel);
    RestrictedIds(i, sel);
    KeptHolds(i.interfaces, DeviceOf<InterfaceConfig>, ms);
    KeptHolds(i.deleteInterfaces, DeviceOf<string>, ms);
    KeptIsDistinct(i.interfaces, DeviceOf<InterfaceConfig>, ms, PortKey);
    KeptIsDistinct(i.deleteInterfaces, DeviceOf<string>, ms, PortDeleteKey);
    forall n | 0 <= n < |r.interfaces| ensures PortOk(ms, VlanIds(r), r.interfaces[n]) {
      assert r.interfaces[n] in r.interfaces && r.interfaces[n] in i.interfaces;
    }
    assert PortKeys(r) <= PortKeys(i);
    forall n | 0 <= n < |r.deleteInterfaces| ensures PortDeleteOk(ms, PortKeys(r), r.deleteInterfaces[n]) {
      assert r.deleteInterfaces[n] in r.deleteInterfaces && r.deleteInterfaces[n] in i.deleteInterfaces;
    }
  }

  lemma RestrictedBindings(i: Intent, sel: set<DeviceId>)
    requires BindingsOk(i) && sel <= EndpointIds(i)
    ensures BindingsOk(Restricted(i, sel))
  {
    var r := Restricted(i, sel);
    var ms := SelectedMembers(i, sel);
    RestrictedIds(i, sel);
    KeptHolds(i.bindings, DeviceOf<AclBinding>, ms);
    KeptHolds(i.deleteBindings, DeviceOf<AclBinding>, ms);
    KeptIsDistinct(i.bindings, DeviceOf<AclBinding>, ms, BindKey);
    KeptIsDistinct(i.deleteBindings, DeviceOf<AclBinding>, ms, BindKey);
    forall n | 0 <= n < |r.bindings| ensures BindingOk(ms, AclIds(r), r.bindings[n]) {
      assert r.bindings[n] in r.bindings && r.bindings[n] in i.bindings;
    }
    assert BindKeys(r) <= BindKeys(i);
    forall n | 0 <= n < |r.deleteBindings| ensures BindingDeleteOk(ms, BindKeys(r), r.deleteBindings[n]) {
      assert r.deleteBindings[n] in r.deleteBindings && r.deleteBindings[n] in i.deleteBindings;
    }
  }

  lemma RestrictedProcesses(i: Intent, sel: set<DeviceId>)
    requires ProcessesOk(i) && sel <= EndpointIds(i)
    ensures ProcessesOk(Restricted(i, sel))
  {
    var r := Restricted(i, sel);
    var ms := SelectedMembers(i, sel);
    RestrictedIds(i, sel);
    KeptHolds(i.processes, DeviceOf<BgpProcess>, ms);
    KeptHolds(i.deleteProcesses, DeviceOf<string>, ms);
    KeptIsDistinct(i.processes, DeviceOf<BgpProcess>, ms, ProcessId);
    KeptIsDistinct(i.deleteProcesses, DeviceOf<string>, ms, ProcessDeleteId);
    forall n | 0 <= n < |r.processes| ensures ProcessOk(ms, r.processes[n]) {
      assert r.processes[n] in r.processes && r.processes[n] in i.processes;
    }
    assert ProcessIds(r) <= ProcessIds(i);
    forall n | 0 <= n < |r.deleteProcesses| ensures ProcessDeleteOk(ms, ProcessIds(r), r.deleteProcesses[n]) {
      assert r.deleteProcesses[n] in r.deleteProcesses && r.deleteProcesses[n] in i.deleteProcesses;
    }
  }

  lemma RestrictedNeighbors(i: Intent, sel: set<DeviceId>)
    requires NeighborsOk(i) && sel <= EndpointIds(i)
    ensures NeighborsOk(Restricted(i, sel))
  {
    var r := Restricted(i, sel);
    var ms := SelectedMembers(i, sel);
    RestrictedIds(i, sel);
    KeptHolds(i.neighbors, DeviceOf<BgpNeighbor>, ms);
    KeptHolds(i.deleteNeighbors, DeviceOf<Peer>, ms);
    KeptHolds(i.deleteProcesses, DeviceOf<string>, ms);
    KeptIsDistinct(i.neighbors, DeviceOf<BgpNeighbor>, ms, NeighborId);
    KeptIsDistinct(i.deleteNeighbors, DeviceOf<Peer>, ms, NeighborDeleteId);
    assert GoneProcesses(r) <= GoneProcesses(i);
    forall n | 0 <= n < |r.neighbors| ensures NeighborOk(ms, GoneProcesses(r), r.neighbors[n]) {
      assert r.neighbors[n] in r.neighbors && r.neighbors[n] in i.neighbors;
    }
    assert NeighborIds(r) <= NeighborIds(i);
    forall n | 0 <= n < |r.deleteNeighbors| ensures NeighborDeleteOk(ms, NeighborIds(r), r.deleteNeighbors[n]) {
      assert r.deleteNeighbors[n] in r.deleteNeighbors && r.deleteNeighbors[n] in i.deleteNeighbors;
    }
  }

  lemma RestrictedGlobals(i: Intent, sel: set<DeviceId>)
    requires VlansOk(i) && AclsOk(i)
    ensures VlansOk(Restricted(i, sel)) && AclsOk(Restricted(i, sel))
  {
    assert VlanIds(Restricted(i, sel)) == VlanIds(i) && AclIds(Restricted(i, sel)) == AclIds(i);
  }

  lemma RestrictedParts(i: Intent, sel: set<DeviceId>)
    requires Valid(i) && sel <= EndpointIds(i)
    ensures var r := Restricted(i, sel);
            VlansOk(r) && PortsOk(r) && AclsOk(r) && BindingsOk(r) && ProcessesOk(r) && NeighborsOk(r)
  {
    RestrictedGlobals(i, sel);
    RestrictedPorts(i, sel);
    RestrictedBindings(i, sel);
    RestrictedProcesses(i, sel);
    RestrictedNeighbors(i, sel);
  }

  lemma ShapeNeedsMember(i: Intent, sel: set<DeviceId>)
    requires Restricted(i, sel).members != []
    ensures HasMember(i, sel)
  {
    KeptHolds(i.members, MemberEndpoint, sel);
    assert Restricted(i, sel).members[0] in Restricted(i, sel).members;
  }

  /** A valid request restricted to some of its endpoints is valid exactly when they have a member. */
  lemma RestrictedIsValid(i: Intent, sel: set<DeviceId>)
    requires Valid(i) && sel != {} && sel <= EndpointIds(i)
    ensures Valid(Restricted(i, sel)) <==> HasMember(i, sel)
  {
    RestrictedParts(i, sel);
    if HasMember(i, sel) {
      RestrictedShape(i, sel);
    } else if ShapeOk(Restricted(i, sel)) {
      ShapeNeedsMember(i, sel);
    }
  }

  // ---- The restricted request has the restricted plan ----

  lemma SameRoutes(i: Intent, sel: set<DeviceId>, d: DeviceId, e: DeviceId)
    requires ShapeOk(i) && e in sel
    ensures d in SelectedMembers(i, sel) && RoutedTo(Routes(Restricted(i, sel).members), d, e) <==> RoutedTo(Routes(i.members), d, e)
  {
    var r := Restricted(i, sel);
    KeptHolds(i.members, MemberEndpoint, sel);
    KeptIsDistinct(i.members, MemberEndpoint, sel, MemberId);
    MembersAreRoutes(i.members, d, e);
    MembersAreRoutes(r.members, d, e);
    if Member(d, e) in i.members {
      assert Member(d, e) in r.members;
    }
  }

  lemma {:induction false} GatheredKept<T, K, V>(items: seq<On<T>>, devices: set<DeviceId>, old': map<DeviceId, DeviceId>,
                                                 new': map<DeviceId, DeviceId>, e: DeviceId, key: T -> K, value: T -> V)
    requires forall d :: d in devices && RoutedTo(new', d, e) <==> RoutedTo(old', d, e)
    ensures Gathered(KeptBy(items, DeviceOf<T>, devices), new', e, key, value) == Gathered(items, old', e, key, value)
  {
    if items != [] {
      var n := |items| - 1;
      GatheredKept(items[..n], devices, old', new', e, key, value);
      var rest := KeptBy(items[..n], DeviceOf<T>, devices);
      assert (rest + [items[n]])[..|rest|] == rest;
      assert items[n].device in devices && RoutedTo(new', items[n].device, e) <==> RoutedTo(old', items[n].device, e);
    }
  }

  lemma {:induction false} GatheredSetKept(items: seq<On<string>>, devices: set<DeviceId>, old': map<DeviceId, DeviceId>,
                                           new': map<DeviceId, DeviceId>, e: DeviceId)
    requires forall d :: d in devices && RoutedTo(new', d, e) <==> RoutedTo(old', d, e)
    ensures GatheredSet(KeptBy(items, DeviceOf<string>, devices), new', e) == GatheredSet(items, old', e)
  {
    if items != [] {
      var n := |items| - 1;
      GatheredSetKept(items[..n], devices, old', new', e);
      var rest := KeptBy(items[..n], DeviceOf<string>, devices);
      assert (rest + [items[n]])[..|rest|] == rest;
      assert items[n].device in devices && RoutedTo(new', items[n].device, e) <==> RoutedTo(old', items[n].device, e);
    }
  }

  /** A selected endpoint is asked for the same by the restricted request. */
  lemma SameStateFor(i: Intent, sel: set<DeviceId>, e: DeviceId)
    requires ShapeOk(i) && e in sel
    ensures StateFor(Restricted(i, sel), e) == StateFor(i, e)
  {
    var ms := SelectedMembers(i, sel);
    var old', new' := Routes(i.members), Routes(Restricted(i, sel).members);
    forall d ensures d in ms && RoutedTo(new', d, e) <==> RoutedTo(old', d, e) { SameRoutes(i, sel, d, e); }
    GatheredKept(i.interfaces, ms, old', new', e, InterfaceKeyOf, Same<InterfaceConfig>);
    GatheredSetKept(i.deleteInterfaces, ms, old', new', e);
    GatheredKept(i.bindings, ms, old', new', e, BindingKeyOf, Same<AclBinding>);
    GatheredKept(i.deleteBindings, ms, old', new', e, BindingKeyOf, Same<AclBinding>);
    GatheredKept(i.processes, ms, old', new', e, ProcessKeyOf, Same<BgpProcess>);
    GatheredKept(i.neighbors, ms, old', new', e, NeighborKeyOf, Same<BgpNeighbor>);
    GatheredSetKept(i.deleteProcesses, ms, old', new', e);
    GatheredKept(i.deleteNeighbors, ms, old', new', e, PeerKeyOf, PeerRecord);
  }

  function StateDevice(d: Desired): DeviceId { d.deviceId }

  lemma {:induction false} KeptStates(i: Intent, es: seq<DeviceId>, sel: set<DeviceId>)
    ensures KeptBy(StatesFor(i, es), StateDevice, sel) == StatesFor(i, KeptBy(es, Same<DeviceId>, sel))
  {
    if es != [] {
      var n := |es| - 1;
      KeptStates(i, es[..n], sel);
      assert StatesFor(i, es)[..n] == StatesFor(i, es[..n]);
      assert StatesFor(i, es)[n].deviceId == es[n];
      var rest := KeptBy(es[..n], Same<DeviceId>, sel);
      assert StatesFor(i, rest + [es[n]]) == StatesFor(i, rest) + [StateFor(i, es[n])];
    }
  }

  lemma KeptOrder(all: set<DeviceId>, sel: set<DeviceId>)
    requires sel <= all
    ensures KeptBy(Strings(all), Same<DeviceId>, sel) == Strings(sel)
  {
    var xs := KeptBy(Strings(all), Same<DeviceId>, sel);
    KeptHolds(Strings(all), Same<DeviceId>, sel);
    KeptIsAscending(Strings(all), sel);
    StringLeTotal();
    ListedIsUnique(StringLe, sel, xs);
    ListedIsUnique(StringLe, sel, Strings(sel));
  }

  /** Restricting and planning commute: the plan of the restricted request is the plan of the whole
      request, cut down to the selected endpoints. */
  lemma PlanOfRestricted(i: Intent, sel: set<DeviceId>)
    requires Valid(i) && sel <= EndpointIds(i)
    ensures PlanOf(Restricted(i, sel)) == KeptBy(PlanOf(i), StateDevice, sel)
  {
    var r := Restricted(i, sel);
    RestrictedIds(i, sel);
    KeptStates(i, Strings(EndpointIds(i)), sel);
    KeptOrder(EndpointIds(i), sel);
    var es := Strings(sel);
    forall n | 0 <= n < |es| ensures StateFor(r, es[n]) == StateFor(i, es[n]) {
      assert es[n] in es;
      SameStateFor(i, sel, es[n]);
    }
    assert StatesFor(r, es) == StatesFor(i, es);
  }

  /** The parts for members that are managed at a selected endpoint. */
  ghost predicate ForSelected<T(!new)>(i: Intent, sel: set<DeviceId>, all: seq<On<T>>, some: seq<On<T>>) {
    forall x :: x in some <==> x in all && exists m :: m in i.members && m.id == x.device && m.endpoint in sel
  }

  /** What is left of a request for the selected endpoints: the endpoints, their members and the parts for those,
      all VLANs and ACLs, and the same domain; one endpoint alone counts as a stack. */
  ghost predicate IsCutDown(i: Intent, sel: set<DeviceId>, r: Intent) {
    && r.domainId == i.domainId && r.topology == (if |r.endpoints| == 1 then StackSingleManagementIp else i.topology)
    && (forall e :: e in r.endpoints <==> e in i.endpoints && e.id in sel)
    && (forall m :: m in r.members <==> m in i.members && m.endpoint in sel)
    && r.vlans == i.vlans && r.acls == i.acls && r.deleteVlans == i.deleteVlans && r.deleteAcls == i.deleteAcls
    && ForSelected(i, sel, i.interfaces, r.interfaces) && ForSelected(i, sel, i.deleteInterfaces, r.deleteInterfaces)
    && ForSelected(i, sel, i.bindings, r.bindings) && ForSelected(i, sel, i.deleteBindings, r.deleteBindings)
    && ForSelected(i, sel, i.processes, r.processes) && ForSelected(i, sel, i.deleteProcesses, r.deleteProcesses)
    && ForSelected(i, sel, i.neighbors, r.neighbors) && ForSelected(i, sel, i.deleteNeighbors, r.deleteNeighbors)
  }

  lemma KeptIsForSelected<T(!new)>(i: Intent, sel: set<DeviceId>, all: seq<On<T>>)
    ensures ForSelected(i, sel, all, KeptBy(all, DeviceOf<T>, SelectedMembers(i, sel)))
  {
    KeptHolds(all, DeviceOf<T>, SelectedMembers(i, sel));
    KeptHolds(i.members, MemberEndpoint, sel);
    forall d ensures d in SelectedMembers(i, sel) <==> exists m :: m in i.members && m.id == d && m.endpoint in sel {
    }
  }

  lemma RestrictedIsCutDown(i: Intent, sel: set<DeviceId>)
    ensures IsCutDown(i, sel, Restricted(i, sel))
  {
    KeptHolds(i.endpoints, EndpointId, sel);
    KeptHolds(i.members, MemberEndpoint, sel);
    KeptIsForSelected(i, sel, i.interfaces);
    KeptIsForSelected(i, sel, i.deleteInterfaces);
    KeptIsForSelected(i, sel, i.bindings);
    KeptIsForSelected(i, sel, i.deleteBindings);
    KeptIsForSelected(i, sel, i.processes);
    KeptIsForSelected(i, sel, i.deleteProcesses);
    KeptIsForSelected(i, sel, i.neighbors);
    KeptIsForSelected(i, sel, i.deleteNeighbors);
  }

  /** The request for the named endpoints. It is refused for no endpoint and for one the request does not have.
      From a valid request it is valid exactly when a switch member is left, and its plan is the plan of the
      request without the states of the other endpoints. */
  method FilterToEndpoints(i: Intent, ids: seq<DeviceId>) returns (r: Result<Intent>)
    ensures r.Ok? <==> ids != [] && forall n :: 0 <= n < |ids| ==> ids[n] in EndpointIds(i)
    ensures r.Ok? ==> r.value == Restricted(i, set id | id in ids)
    ensures r.Ok? ==> IsCutDown(i, (set id | id in ids), r.value)
    ensures r.Ok? && Valid(i) ==> (Valid(r.value) <==> HasMember(i, set id | id in ids))
    ensures r.Ok? && Valid(i) ==> PlanOf(r.value) == KeptBy(PlanOf(i), StateDevice, set id | id in ids)
  {
    if ids == [] {
      return Err;
    }
    for n := 0 to |ids|
      invariant forall m :: 0 <= m < n ==> ids[m] in EndpointIds(i)
    {
      if ids[n] !in EndpointIds(i) {
        return Err;
      }
    }
    ghost var sel := set id | id in ids;
    RestrictedIsCutDown(i, sel);
    assert ids[0] in sel && sel <= EndpointIds(i);
    if Valid(i) {
      RestrictedIsValid(i, sel);
      PlanOfRestricted(i, sel);
    }
    r := Ok(Restricted(i, set id | id in ids));
  }

  // ---- Which endpoints to retry ----

  datatype DeviceResult = DeviceResult(device: DeviceId, status: ApplyStatus)

  predicate Retryable(s: ApplyStatus) { s.ApplyFailed? || s.ApplyRolledBack? }
  predicate NeedsRecovery(s: ApplyStatus) { s.ApplyInDoubt? }
  predicate Completed(s: ApplyStatus) { s.Success? || s.SuccessWithWarning? || s.NoOpSuccess? }

  /** The devices of the results with a given kind of status, in their order. */
  function DevicesWith(results: seq<DeviceResult>, kind: ApplyStatus -> bool): seq<DeviceId> {
    if results == [] then []
    else
      var n := |results| - 1;
      var rest := DevicesWith(results[..n], kind);
      if kind(results[n].status) then rest + [results[n].device] else rest
  }

  /** The devices that have a result with one of the statuses. */
  ghost predicate ByStatus(results: seq<DeviceResult>, devices: seq<DeviceId>, statuses: set<ApplyStatus>) {
    forall d :: d in devices <==> exists n :: 0 <= n < |results| && results[n].device == d && results[n].status in statuses
  }

  /** Sorts the results of a request into those to retry, those for recovery and those done. */
  method SortResults(results: seq<DeviceResult>)
    returns (retry: seq<DeviceId>, recover: seq<DeviceId>, done: seq<DeviceId>)
    ensures retry == DevicesWith(results, Retryable)
    ensures recover == DevicesWith(results, NeedsRecovery)
    ensures done == DevicesWith(results, Completed)
    ensures ByStatus(results, retry, {ApplyFailed, ApplyRolledBack}) && ByStatus(results, recover, {ApplyInDoubt})
    ensures ByStatus(results, done, {Success, SuccessWithWarning, NoOpSuccess})
  {
    DevicesWithHolds(results, Retryable);
    DevicesWithHolds(results, NeedsRecovery);
    DevicesWithHolds(results, Completed);
    retry, recover, done := [], [], [];
    for n := 0 to |results|
      invariant retry == DevicesWith(results[..n], Retryable)
      invariant recover == DevicesWith(results[..n], NeedsRecovery)
      invariant done == DevicesWith(results[..n], Completed)
    {
      assert results[..n + 1][..n] == results[..n];
      match results[n].status {
        case ApplyFailed => retry := retry + [results[n].device];
        case ApplyRolledBack => retry := retry + [results[n].device];
        case ApplyInDoubt => recover := recover + [results[n].device];
        case Success => done := done + [results[n].device];
        case SuccessWithWarning => done := done + [results[n].device];
        case NoOpSuccess => done := done + [results[n].device];
        case PartialSuccess =>
      }
    }
    assert results[..|results|] == results;
  }

  lemma {:induction false} DevicesWithHolds(results: seq<DeviceResult>, kind: ApplyStatus -> bool)
    ensures forall d :: d in DevicesWith(results, kind) <==>
              exists n :: 0 <= n < |results| && results[n].device == d && kind(results[n].status)
  {
    if results != [] {
      var n := |results| - 1;
      var front := results[..n];
      DevicesWithHolds(front, kind);
      forall d | d in DevicesWith(results, kind)
        ensures exists m :: 0 <= m < |results| && results[m].device == d && kind(results[m].status)
      {
        if d in DevicesWith(front, kind) {
          var m :| 0 <= m < n && front[m].device == d && kind(front[m].status);
          assert results[m] == front[m];
        } else {
          assert results[n].device == d;
        }
      }
      forall m | 0 <= m < |results| && kind(results[m].status) ensures results[m].device in DevicesWith(results, kind) {
        if m < n { assert front[m] == results[m]; }
      }
    }
  }

  /** The endpoints to retry: all that ended failed or rolled back, or the named ones among them, sorted and
      without duplicates. Anything else named is refused, and so is an empty choice. */
  method SelectRetryable(results: seq<DeviceResult>, named: seq<DeviceId>) returns (r: Result<seq<DeviceId>>)
    ensures var all := DevicesWith(results, Retryable);
            r.Ok? <==> all != [] && forall n :: 0 <= n < |named| ==> named[n] in all
    ensures r.Ok? && named == [] ==> r.value == DevicesWith(results, Retryable)
    ensures r.Ok? && named != [] ==> r.value == Strings(set d | d in named)
    ensures r.Ok? ==> forall d :: d in r.value ==>
              exists n :: 0 <= n < |results| && results[n].device == d && results[n].status in {ApplyFailed, ApplyRolledBack}
    ensures r.Ok? && named == [] ==>
              forall n :: 0 <= n < |results| && results[n].status in {ApplyFailed, ApplyRolledBack} ==> results[n].device in r.value
  {
    DevicesWithHolds(results, Retryable);
    var retry, recover, done := SortResults(results);
    if named == [] {
      return if retry == [] then Err else Ok(retry);
    }
    for n := 0 to |named|
      invariant forall m :: 0 <= m < n ==> named[m] in retry
    {
      if named[n] !in retry {
        return Err;
      }
    }
    assert named[0] in retry;
    var sorted := SortStrings(set d | d in named);
    r := Ok(sorted);
  }

  /** A device that is in doubt and has only one result is never retried. */
  lemma InDoubtIsNeverRetried(results: seq<DeviceResult>, named: seq<DeviceId>, d: DeviceId, n: nat)
    requires n < |results| && results[n] == DeviceResult(d, ApplyInDoubt)
    requires forall m :: 0 <= m < |results| && m != n ==> results[m].device != d
    ensures d !in DevicesWith(results, Retryable)
    ensures (forall m :: 0 <= m < |named| ==> named[m] in DevicesWith(results, Retryable)) ==> d !in named
  {
    DevicesWithHolds(results, Retryable);
  }
}
