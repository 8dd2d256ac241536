/** From a domain request to one desired state for each management endpoint. */
module DomainPlan {
  import opened Wrappers
  import opened Ordering
  import opened Journal
  import opened ConfigModel
  import opened Intents
  import Validation

  /** Where each switch member is managed. */
  function Routes(members: seq<Member>): map<DeviceId, DeviceId> {
    if members == [] then map[]
    else
      var n := |members| - 1;
      Routes(members[..n])[members[n].id := members[n].endpoint]
  }

  predicate RoutedTo(routes: map<DeviceId, DeviceId>, device: DeviceId, e: DeviceId) {
    device in routes && routes[device] == e
  }

  /** The parts of a list that go to one endpoint, by key: the last one wins. */
  function Gathered<T, K(==), V>(items: seq<On<T>>, routes: map<DeviceId, DeviceId>, e: DeviceId,
                                 key: T -> K, value: T -> V): map<K, V> {
    if items == [] then map[]
    else
      var n := |items| - 1;
      var rest := Gathered(items[..n], routes, e, key, value);
      if RoutedTo(routes, items[n].device, e) then rest[key(items[n].item) := value(items[n].item)] else rest
  }

  function GatheredSet(items: seq<On<string>>, routes: map<DeviceId, DeviceId>, e: DeviceId): set<string> {
    if items == [] then {}
    else
      var n := |items| - 1;
      var rest := GatheredSet(items[..n], routes, e);
      if RoutedTo(routes, items[n].device, e) then rest + {items[n].item} else rest
  }

  function Collected<T, K(==)>(items: seq<T>, key: T -> K): map<K, T> {
    if items == [] then map[]
    else
      var n := |items| - 1;
      Collected(items[..n], key)[key(items[n]) := items[n]]
  }

  function Same<T>(x: T): T { x }

  function PeerKeyOf(p: Peer): string { BgpNeighborKey(p.vrf, p.address) }

  /** The record a neighbour removal is kept as. */
  function PeerRecord(p: Peer): BgpNeighbor { BgpNeighbor(p.vrf, p.address, 0, None, None, None) }

  /** What one endpoint is asked for. */
  function StateFor(i: Intent, e: DeviceId): Desired {
    var routes := Routes(i.members);
    Desired(
      e,
      Collected(i.vlans, VlanKeyOf),
      Gathered(i.interfaces, routes, e, InterfaceKeyOf, Same<InterfaceConfig>),
      Collected(i.acls, AclKeyOf),
      Gathered(i.bindings, routes, e, BindingKeyOf, Same<AclBinding>),
      {},
      Gathered(i.processes, routes, e, ProcessKeyOf, Same<BgpProcess>),
      Gathered(i.neighbors, routes, e, NeighborKeyOf, Same<BgpNeighbor>),
      (set v | v in i.deleteVlans),
      GatheredSet(i.deleteInterfaces, routes, e),
      (set a | a in i.deleteAcls),
      Gathered(i.deleteBindings, routes, e, BindingKeyOf, Same<AclBinding>),
      GatheredSet(i.deleteProcesses, routes, e),
      Gathered(i.deleteNeighbors, routes, e, PeerKeyOf, PeerRecord))
  }

  ghost function StatesFor(i: Intent, es: seq<DeviceId>): (r: seq<Desired>)
    ensures |r| == |es| && forall n :: 0 <= n < |es| ==> r[n] == StateFor(i, es[n])
  {
    seq(|es|, n requires 0 <= n < |es| => StateFor(i, es[n]))
  }

  /** The plan: the state of every endpoint, in ascending order of their ids. */
  ghost function PlanOf(i: Intent): seq<Desired> {
    StatesFor(i, Strings(EndpointIds(i)))
  }

  // ---- The planner as it runs ----

  type States = map<DeviceId, Desired>

  function PutPort(s: Desired, p: InterfaceConfig): Desired { s.(interfaces := s.interfaces[p.name := p]) }
  function DropPort(s: Desired, n: string): Desired { s.(deleteInterfaces := s.deleteInterfaces + {n}) }
  function PutBinding(s: Desired, b: AclBinding): Desired { s.(bindings := s.bindings[BindingKeyOf(b) := b]) }
  function DropBinding(s: Desired, b: AclBinding): Desired { s.(deleteBindings := s.deleteBindings[BindingKeyOf(b) := b]) }
  function PutProcess(s: Desired, p: BgpProcess): Desired { s.(processes := s.processes[p.vrf := p]) }
  function PutNeighbor(s: Desired, n: BgpNeighbor): Desired { s.(neighbors := s.neighbors[NeighborKeyOf(n) := n]) }
  function DropProcess(s: Desired, v: string): Desired { s.(deleteProcesses := s.deleteProcesses + {v}) }
  function DropNeighbor(s: Desired, p: Peer): Desired {
    s.(deleteNeighbors := s.deleteNeighbors[PeerKeyOf(p) := PeerRecord(p)])
  }

  /** A state with the parts that go to it put in, in order. */
  function Folded<T>(items: seq<On<T>>, routes: map<DeviceId, DeviceId>, e: DeviceId, s: Desired,
                     put: (Desired, T) -> Desired): Desired {
    if items == [] then s
    else
      var n := |items| - 1;
      var rest := Folded(items[..n], routes, e, s, put);
      if RoutedTo(routes, items[n].device, e) then put(rest, items[n].item) else rest
  }

  lemma OneMoreFolded<T>(items: seq<On<T>>, n: nat, routes: map<DeviceId, DeviceId>, e: DeviceId, s: Desired,
                         put: (Desired, T) -> Desired)
    requires n < |items|
    ensures Folded(items[..n + 1], routes, e, s, put)
         == if RoutedTo(routes, items[n].device, e) then put(Folded(items[..n], routes, e, s, put), items[n].item)
            else Folded(items[..n], routes, e, s, put)
  {
    assert items[..n + 1][..n] == items[..n];
  }

  predicate AllRouted<T>(items: seq<On<T>>, routes: map<DeviceId, DeviceId>, known: set<DeviceId>) {
    forall n :: 0 <= n < |items| ==> items[n].device in routes && routes[items[n].device] in known
  }

  /** Putting one part into the state of its endpoint is one more step for every endpoint. */
  lemma OneMoreSpread<T>(items: seq<On<T>>, n: nat, routes: map<DeviceId, DeviceId>, states: States, out: States, next: States,
                         put: (Desired, T) -> Desired)
    requires n < |items| && out.Keys == states.Keys && items[n].device in routes && routes[items[n].device] in out
    requires forall e :: e in states ==> out[e] == Folded(items[..n], routes, e, states[e], put)
    requires next == out[routes[items[n].device] := put(out[routes[items[n].device]], items[n].item)]
    ensures next.Keys == states.Keys
    ensures forall e :: e in states ==> next[e] == Folded(items[..n + 1], routes, e, states[e], put)
  {
    forall e | e in states ensures next[e] == Folded(items[..n + 1], routes, e, states[e], put) {
      OneMoreFolded(items, n, routes, e, states[e], put);
    }
  }

  lemma OneMoreRouted<T>(items: seq<On<T>>, n: nat, routes: map<DeviceId, DeviceId>, known: set<DeviceId>)
    requires n < |items|
    ensures AllRouted(items[..n + 1], routes, known)
       <==> AllRouted(items[..n], routes, known) && items[n].device in routes && routes[items[n].device] in known
  {
    assert items[..n + 1] == items[..n] + [items[n]];
  }

  /** One loop of the planner: look up the endpoint of each part and change its state. */
  method Spread<T>(items: seq<On<T>>, routes: map<DeviceId, DeviceId>, states: States, put: (Desired, T) -> Desired)
    returns (r: Option<States>)
    ensures r.Some? <==> AllRouted(items, routes, states.Keys)
    ensures r.Some? ==> r.value.Keys == states.Keys
    ensures r.Some? ==> forall e :: e in states ==> r.value[e] == Folded(items, routes, e, states[e], put)
  {
    var out := states;
    for n := 0 to |items|
      invariant out.Keys == states.Keys && AllRouted(items[..n], routes, states.Keys)
      invariant forall e :: e in states ==> out[e] == Folded(items[..n], routes, e, states[e], put)
    {
      var device := items[n].device;
      if device !in routes || routes[device] !in out {
        return None;
      }
      var e := routes[device];
      var next := out[e := put(out[e], items[n].item)];
      OneMoreRouted(items, n, routes, states.Keys);
      OneMoreSpread(items, n, routes, states, out, next, put);
      out := next;
    }
    assert items[..|items|] == items;
    r := Some(out);
  }

  lemma {:induction false} FoldedPorts(items: seq<On<InterfaceConfig>>, routes: map<DeviceId, DeviceId>, e: DeviceId, s: Desired)
    requires s.interfaces == map[]
    ensures Folded(items, routes, e, s, PutPort) == s.(interfaces := Gathered(items, routes, e, InterfaceKeyOf, Same<InterfaceConfig>))
  {
    if items != [] { FoldedPorts(items[..|items| - 1], routes, e, s); }
  }

  lemma {:induction false} FoldedPortDrops(items: seq<On<string>>, routes: map<DeviceId, DeviceId>, e: DeviceId, s: Desired)
    requires s.deleteInterfaces == {}
    ensures Folded(items, routes, e, s, DropPort) == s.(deleteInterfaces := GatheredSet(items, routes, e))
  {
    if items != [] { FoldedPortDrops(items[..|items| - 1], routes, e, s); }
  }

  lemma {:induction false} FoldedBindings(items: seq<On<AclBinding>>, routes: map<DeviceId, DeviceId>, e: DeviceId, s: Desired)
    requires s.bindings == map[]
    ensures Folded(items, routes, e, s, PutBinding) == s.(bindings := Gathered(items, routes, e, BindingKeyOf, Same<AclBinding>))
  {
    if items != [] { FoldedBindings(items[..|items| - 1], routes, e, s); }
  }

  lemma {:induction false} FoldedBindingDrops(items: seq<On<AclBinding>>, routes: map<DeviceId, DeviceId>, e: DeviceId, s: Desired)
    requires s.deleteBindings == map[]
    ensures Folded(items, routes, e, s, DropBinding) == s.(deleteBindings := Gathered(items, routes, e, BindingKeyOf, Same<AclBinding>))
  {
    if items != [] { FoldedBindingDrops(items[..|items| - 1], routes, e, s); }
  }

  lemma {:induction false} FoldedProcesses(items: seq<On<BgpProcess>>, routes: map<DeviceId, DeviceId>, e: DeviceId, s: Desired)
    requires s.processes == map[]
    ensures Folded(items, routes, e, s, PutProcess) == s.(processes := Gathered(items, routes, e, ProcessKeyOf, Same<BgpProcess>))
  {
    if items != [] { FoldedProcesses(items[..|items| - 1], routes, e, s); }
  }

  lemma {:induction false} FoldedNeighbors(items: seq<On<BgpNeighbor>>, routes: map<DeviceId, DeviceId>, e: DeviceId, s: Desired)
    requires s.neighbors == map[]
    ensures Folded(items, routes, e, s, PutNeighbor) == s.(neighbors := Gathered(items, routes, e, NeighborKeyOf, Same<BgpNeighbor>))
  {
    if items != [] { FoldedNeighbors(items[..|items| - 1], routes, e, s); }
  }

  lemma {:induction false} FoldedProcessDrops(items: seq<On<string>>, routes: map<DeviceId, DeviceId>, e: DeviceId, s: Desired)
    requires s.deleteProcesses == {}
    ensures Folded(items, routes, e, s, DropProcess) == s.(deleteProcesses := GatheredSet(items, routes, e))
  {
    if items != [] { FoldedProcessDrops(items[..|items| - 1], routes, e, s); }
  }

  lemma {:induction false} FoldedNeighborDrops(items: seq<On<Peer>>, routes: map<DeviceId, DeviceId>, e: DeviceId, s: Desired)
    requires s.deleteNeighbors == map[]
    ensures Folded(items, routes, e, s, DropNeighbor) == s.(deleteNeighbors := Gathered(items, routes, e, PeerKeyOf, PeerRecord))
  {
    if items != [] { FoldedNeighborDrops(items[..|items| - 1], routes, e, s); }
  }

  /** The state before any part for a single member is put in. */
  function StartState(i: Intent, e: DeviceId): Desired {
    Desired(e, Collected(i.vlans, VlanKeyOf), map[], Collected(i.acls, AclKeyOf), map[], {}, map[], map[],
            (set v | v in i.deleteVlans), {}, (set a | a in i.deleteAcls), map[], {}, map[])
  }

  /** Ports and ACL bindings: the first four loops. */
  method SpreadPorts(i: Intent, routes: map<DeviceId, DeviceId>, states: States) returns (r: Option<States>)
    requires forall e :: e in states ==> states[e] == StartState(i, e)
    requires AllRouted(i.interfaces, routes, states.Keys) && AllRouted(i.deleteInterfaces, routes, states.Keys)
    requires AllRouted(i.bindings, routes, states.Keys) && AllRouted(i.deleteBindings, routes, states.Keys)
    ensures r.Some? && r.value.Keys == states.Keys
    ensures forall e :: e in states ==> r.value[e] == WithPorts(i, routes, e)
  {
    var a := Spread(i.interfaces, routes, states, PutPort);
    var b := Spread(i.deleteInterfaces, routes, a.value, DropPort);
    var c := Spread(i.bindings, routes, b.value, PutBinding);
    r := Spread(i.deleteBindings, routes, c.value, DropBinding);
    forall e | e in states ensures r.value[e] == WithPorts(i, routes, e) {
      FoldedPorts(i.interfaces, routes, e, states[e]);
      FoldedPortDrops(i.deleteInterfaces, routes, e, a.value[e]);
      FoldedBindings(i.bindings, routes, e, b.value[e]);
      FoldedBindingDrops(i.deleteBindings, routes, e, c.value[e]);
    }
  }

  function WithPorts(i: Intent, routes: map<DeviceId, DeviceId>, e: DeviceId): Desired {
    StartState(i, e).(
      interfaces := Gathered(i.interfaces, routes, e, InterfaceKeyOf, Same<InterfaceConfig>),
      deleteInterfaces := GatheredSet(i.deleteInterfaces, routes, e),
      bindings := Gathered(i.bindings, routes, e, BindingKeyOf, Same<AclBinding>),
      deleteBindings := Gathered(i.deleteBindings, routes, e, BindingKeyOf, Same<AclBinding>))
  }

  /** BGP: the last four loops. */
  method SpreadBgp(i: Intent, routes: map<DeviceId, DeviceId>, states: States) returns (r: Option<States>)
    requires routes == Routes(i.members) && forall e :: e in states ==> states[e] == WithPorts(i, routes, e)
    requires AllRouted(i.processes, routes, states.Keys) && AllRouted(i.neighbors, routes, states.Keys)
    requires AllRouted(i.deleteProcesses, routes, states.Keys) && AllRouted(i.deleteNeighbors, routes, states.Keys)
    ensures r.Some? && r.value.Keys == states.Keys
    ensures forall e :: e in states ==> r.value[e] == StateFor(i, e)
  {
    var a := Spread(i.processes, routes, states, PutProcess);
    var b := Spread(i.neighbors, routes, a.value, PutNeighbor);
    var c := Spread(i.deleteProcesses, routes, b.value, DropProcess);
    r := Spread(i.deleteNeighbors, routes, c.value, DropNeighbor);
    forall e | e in states ensures r.value[e] == StateFor(i, e) {
      FoldedProcesses(i.processes, routes, e, states[e]);
      FoldedNeighbors(i.neighbors, routes, e, a.value[e]);
      FoldedProcessDrops(i.deleteProcesses, routes, e, b.value[e]);
      FoldedNeighborDrops(i.deleteNeighbors, routes, e, c.value[e]);
    }
  }

  lemma {:induction false} RoutesHold(members: seq<Member>)
    ensures forall d :: d in Routes(members) <==> exists n :: 0 <= n < |members| && members[n].id == d
    ensures forall d :: d in Routes(members) ==> exists n :: 0 <= n < |members| && members[n] == Member(d, Routes(members)[d])
  {
    if members != [] {
      var n := |members| - 1;
      RoutesHold(members[..n]);
      forall d | d in Routes(members)
        ensures exists m :: 0 <= m < |members| && members[m] == Member(d, Routes(members)[d])
      {
        if d == members[n].id {
          assert members[n] == Member(d, Routes(members)[d]);
        } else {
          var m :| 0 <= m < n && members[..n][m] == Member(d, Routes(members[..n])[d]);
          assert members[m] == Member(d, Routes(members)[d]);
        }
      }
      forall m | 0 <= m < |members| ensures members[m].id in Routes(members) {
        if m < n { assert members[..n][m] == members[m]; }
      }
    }
  }

  lemma MembersAreRoutes(members: seq<Member>, d: DeviceId, e: DeviceId)
    requires Distinct(members, MemberId)
    ensures RoutedTo(Routes(members), d, e) <==> Member(d, e) in members
  {
    RoutesHold(members);
    if Member(d, e) in members {
      var n :| 0 <= n < |members| && members[n] == Member(d, e);
      var m :| 0 <= m < |members| && members[m] == Member(d, Routes(members)[d]);
      assert MemberId(members[n]) == MemberId(members[m]);
    }
  }

  /** In a valid request every part for a known member finds the state of its endpoint. */
  lemma KnownIsRouted<T>(i: Intent, items: seq<On<T>>)
    requires ShapeOk(i) && forall n :: 0 <= n < |items| ==> items[n].device in MemberIds(i)
    ensures AllRouted(items, Routes(i.members), EndpointIds(i))
  {
    var routes := Routes(i.members);
    RoutesHold(i.members);
    forall n | 0 <= n < |items| ensures items[n].device in routes && routes[items[n].device] in EndpointIds(i) {
      assert items[n].device in MemberIds(i);
      var m :| m in i.members && m.id == items[n].device;
      var x :| 0 <= x < |i.members| && i.members[x] == m;
      assert i.members[x].id == items[n].device;
      var y :| 0 <= y < |i.members| && i.members[y] == Member(items[n].device, routes[items[n].device]);
      assert MemberOk(EndpointIds(i), i.members[y]);
    }
  }

  lemma ValidIsRouted(i: Intent)
    requires Valid(i)
    ensures var routes, known := Routes(i.members), EndpointIds(i);
            && AllRouted(i.interfaces, routes, known) && AllRouted(i.deleteInterfaces, routes, known)
            && AllRouted(i.bindings, routes, known) && AllRouted(i.deleteBindings, routes, known)
            && AllRouted(i.processes, routes, known) && AllRouted(i.neighbors, routes, known)
            && AllRouted(i.deleteProcesses, routes, known) && AllRouted(i.deleteNeighbors, routes, known)
  {
    KnownIsRouted(i, i.interfaces);
    KnownIsRouted(i, i.deleteInterfaces);
    KnownIsRouted(i, i.bindings);
    KnownIsRouted(i, i.deleteBindings);
    KnownIsRouted(i, i.processes);
    KnownIsRouted(i, i.neighbors);
    KnownIsRouted(i, i.deleteProcesses);
    KnownIsRouted(i, i.deleteNeighbors);
  }

  ghost predicate PlannedFor(i: Intent, states: States) {
    states.Keys == EndpointIds(i) && forall e :: e in states ==> states[e] == StateFor(i, e)
  }

  method BuildStates(i: Intent) returns (states: States)
    requires Valid(i)
    ensures PlannedFor(i, states)
  {
    ValidIsRouted(i);
    var routes := Routes(i.members);
    var start: States := map e | e in EndpointIds(i) :: StartState(i, e);
    assert start.Keys == EndpointIds(i);
    var ports := SpreadPorts(i, routes, start);
    var all := SpreadBgp(i, routes, ports.value);
    states := all.value;
  }

  method InOrderOfEndpoints(ghost i: Intent, states: States) returns (out: seq<Desired>)
    requires PlannedFor(i, states)
    ensures out == PlanOf(i)
  {
    var keys := SortStrings(states.Keys);
    out := [];
    for n := 0 to |keys|
      invariant |out| == n && forall m :: 0 <= m < n ==> out[m] == states[keys[m]]
    {
      out := out + [states[keys[n]]];
    }
  }

  /** Planning succeeds exactly for valid requests and gives the state of every endpoint in order. */
  method PlanDomain(i: Intent) returns (r: Result<seq<Desired>>)
    ensures r.Ok? <==> Valid(i)
    ensures r.Ok? ==> r.value == PlanOf(i)
  {
    var good := Validation.Validate(i);
    if !good {
      return Err;
    }
    var states := BuildStates(i);
    var out := InOrderOfEndpoints(i, states);
    r := Ok(out);
  }
}
