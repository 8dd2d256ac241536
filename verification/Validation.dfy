/** The checks as they are run: one pass over each list, remembering the keys already seen. */
module Validation {
  import opened ConfigModel
  import opened Intents
  import opened Faults

  /** One pass: stop at the first part that is not well formed or repeats a key. */
  method CheckEach<T, K(==)>(items: seq<T>, ok: T -> bool, key: T -> K) returns (good: bool)
    ensures good <==> AllOk(items, ok) && Distinct(items, key)
  {
    var seen: set<K> := {};
    for n := 0 to |items|
      invariant forall m :: 0 <= m < n ==> ok(items[m]) && key(items[m]) in seen
      invariant forall l, m :: 0 <= l < m < n ==> key(items[l]) != key(items[m])
      invariant forall k :: k in seen ==> exists m :: 0 <= m < n && key(items[m]) == k
    {
      if !ok(items[n]) {
        return false;
      }
      if key(items[n]) in seen {
        return false;
      }
      seen := seen + {key(items[n])};
    }
    good := true;
  }

  method CheckNoneIn(ids: seq<u16>, declared: set<u16>) returns (good: bool)
    ensures good <==> forall n :: 0 <= n < |ids| ==> ids[n] !in declared
  {
    for n := 0 to |ids|
      invariant forall m :: 0 <= m < n ==> ids[m] !in declared
    {
      if ids[n] in declared {
        return false;
      }
    }
    good := true;
  }

  method CheckShape(i: Intent) returns (good: bool)
    ensures good <==> ShapeOk(i)
  {
    if !NotBlank(i.domainId) || i.endpoints == [] || i.members == [] || !TopologyOk(i.topology, |i.endpoints|) {
      return false;
    }
    good := CheckEach(i.endpoints, EndpointOk, EndpointId);
    if good {
      var ids := EndpointIds(i);
      good := CheckEach(i.members, m => MemberOk(ids, m), MemberId);
    }
  }

  method CheckVlans(i: Intent) returns (good: bool)
    ensures good <==> VlansOk(i)
  {
    good := CheckEach(i.vlans, VlanOk, VlanId);
    if good {
      good := CheckEach(i.deleteVlans, VlanIdOk, Itself);
      if good {
        good := CheckNoneIn(i.deleteVlans, VlanIds(i));
      }
    }
  }

  method CheckPorts(i: Intent) returns (good: bool)
    ensures good <==> PortsOk(i)
  {
    var members, vlans, upserts := MemberIds(i), VlanIds(i), PortKeys(i);
    good := CheckEach(i.interfaces, p => PortOk(members, vlans, p), PortKey);
    if good {
      good := CheckEach(i.deleteInterfaces, p => PortDeleteOk(members, upserts, p), PortDeleteKey);
    }
  }

  method CheckAcls(i: Intent) returns (good: bool)
    ensures good <==> AclsOk(i)
  {
    good := CheckEach(i.acls, AclOk, AclId);
    if good {
      good := CheckEach(i.deleteAcls, AclIdOk, Itself);
      if good {
        good := CheckNoneIn(i.deleteAcls, AclIds(i));
      }
    }
  }

  method CheckBindings(i: Intent) returns (good: bool)
    ensures good <==> BindingsOk(i)
  {
    var members, acls, upserts := MemberIds(i), AclIds(i), BindKeys(i);
    good := CheckEach(i.bindings, b => BindingOk(members, acls, b), BindKey);
    if good {
      good := CheckEach(i.deleteBindings, b => BindingDeleteOk(members, upserts, b), BindKey);
    }
  }

  method CheckProcesses(i: Intent) returns (good: bool)
    ensures good <==> ProcessesOk(i)
  {
    var members, upserts := MemberIds(i), ProcessIds(i);
    good := CheckEach(i.processes, p => ProcessOk(members, p), ProcessId);
    if good {
      good := CheckEach(i.deleteProcesses, p => ProcessDeleteOk(members, upserts, p), ProcessDeleteId);
    }
  }

  method CheckNeighbors(i: Intent) returns (good: bool)
    ensures good <==> NeighborsOk(i)
  {
    var members, gone, upserts := MemberIds(i), GoneProcesses(i), NeighborIds(i);
    good := CheckEach(i.neighbors, n => NeighborOk(members, gone, n), NeighborId);
    if good {
      good := CheckEach(i.deleteNeighbors, n => NeighborDeleteOk(members, upserts, n), NeighborDeleteId);
    }
  }

  /** A request passes exactly when it is valid, and so exactly when it has none of the faults. */
  method Validate(i: Intent) returns (good: bool)
    ensures good <==> Valid(i)
    ensures good <==> !HasFault(i)
  {
    ValidExactlyWithoutFault(i);
    good := CheckShape(i);
    if good { good := CheckVlans(i); }
    if good { good := CheckPorts(i); }
    if good { good := CheckAcls(i); }
    if good { good := CheckBindings(i); }
    if good { good := CheckProcesses(i); }
    if good { good := CheckNeighbors(i); }
  }
}
