/** What validation and planning promise to the later stages. */
module PlannedStates {
  import opened Wrappers
  import opened Ordering
  import opened Text
  import opened Journal
  import opened ConfigModel
  import opened Normalize
  import opened Objects
  import opened Intents
  import opened Diff
  import opened Convergence
  import opened ChangePlan
  import opened DomainPlan
  import opened Wire
  import opened Mapper

  // ---- Where the objects of a planned state come from ----

  ghost predicate Origin<T, V>(items: seq<On<T>>, routes: map<DeviceId, DeviceId>, e: DeviceId, value: T -> V, v: V, n: int) {
    0 <= n < |items| && RoutedTo(routes, items[n].device, e) && value(items[n].item) == v
  }

  lemma {:induction false} GatheredAt<T, K, V>(items: seq<On<T>>, routes: map<DeviceId, DeviceId>, e: DeviceId,
                                               key: T -> K, value: T -> V, k: K) returns (n: nat)
    requires k in Gathered(items, routes, e, key, value)
    ensures Origin(items, routes, e, value, Gathered(items, routes, e, key, value)[k], n)
    ensures key(items[n].item) == k
  {
    var last := |items| - 1;
    if RoutedTo(routes, items[last].device, e) && k == key(items[last].item) {
      n := last;
    } else {
      n := GatheredAt(items[..last], routes, e, key, value, k);
    }
  }

  lemma {:induction false} GatheredSetAt(items: seq<On<string>>, routes: map<DeviceId, DeviceId>, e: DeviceId, x: string)
    returns (n: nat)
    requires x in GatheredSet(items, routes, e)
    ensures Origin(items, routes, e, Same<string>, x, n)
  {
    var last := |items| - 1;
    if x in GatheredSet(items[..last], routes, e) {
      n := GatheredSetAt(items[..last], routes, e, x);
    } else {
      n := last;
    }
  }

  lemma {:induction false} CollectedHolds<T(!new), K(!new)>(items: seq<T>, key: T -> K)
    ensures var m := Collected(items, key);
            && (forall k :: k in m ==> key(m[k]) == k && m[k] in items)
            && (forall n :: 0 <= n < |items| ==> key(items[n]) in m)
  {
    if items != [] {
      var n := |items| - 1;
      CollectedHolds(items[..n], key);
      assert items == items[..n] + [items[n]];
      forall i | 0 <= i < |items| ensures key(items[i]) in Collected(items, key) {
        if i < n { assert items[..n][i] == items[i]; }
      }
    }
  }

  /** The map has a key for every part that goes to the endpoint, and nothing but such parts. */
  ghost predicate Faithful<T, K, V>(items: seq<On<T>>, routes: map<DeviceId, DeviceId>, e: DeviceId,
                                    key: T -> K, value: T -> V, m: map<K, V>) {
    && (forall n :: 0 <= n < |items| && RoutedTo(routes, items[n].device, e) ==> key(items[n].item) in m)
    && (forall k :: k in m ==> exists n :: Origin(items, routes, e, value, m[k], n) && key(items[n].item) == k)
  }

  lemma {:induction false} GatheredReaches<T, K, V>(items: seq<On<T>>, routes: map<DeviceId, DeviceId>, e: DeviceId,
                                                    key: T -> K, value: T -> V, n: nat)
    requires n < |items| && RoutedTo(routes, items[n].device, e)
    ensures key(items[n].item) in Gathered(items, routes, e, key, value)
  {
    var last := |items| - 1;
    if n < last {
      assert items[..last][n] == items[n];
      GatheredReaches(items[..last], routes, e, key, value, n);
    }
  }

  lemma {:induction false} GatheredSetReaches(items: seq<On<string>>, routes: map<DeviceId, DeviceId>, e: DeviceId, n: nat)
    requires n < |items| && RoutedTo(routes, items[n].device, e)
    ensures items[n].item in GatheredSet(items, routes, e)
  {
    var last := |items| - 1;
    if n < last {
      assert items[..last][n] == items[n];
      GatheredSetReaches(items[..last], routes, e, n);
    }
  }

  lemma GatheredIsFaithful<T, K(!new), V>(items: seq<On<T>>, routes: map<DeviceId, DeviceId>, e: DeviceId, key: T -> K, value: T -> V)
    ensures Faithful(items, routes, e, key, value, Gathered(items, routes, e, key, value))
  {
    var m := Gathered(items, routes, e, key, value);
    forall n | 0 <= n < |items| && RoutedTo(routes, items[n].device, e) ensures key(items[n].item) in m {
      GatheredReaches(items, routes, e, key, value, n);
    }
    forall k | k in m ensures exists n :: Origin(items, routes, e, value, m[k], n) && key(items[n].item) == k {
      var n := GatheredAt(items, routes, e, key, value, k);
    }
  }

  /** The plan loses no part of the request and makes none up: each endpoint is asked for what its members
      are asked for, and for all VLANs and ACLs. */
  lemma PlanIsFaithful(i: Intent, e: DeviceId)
    ensures var d, routes := StateFor(i, e), Routes(i.members);
            && d.deviceId == e && d.vlans.Keys == VlanIds(i) && d.acls.Keys == AclIds(i)
            && (forall v :: v in d.deleteVlans <==> v in i.deleteVlans) && (forall a :: a in d.deleteAcls <==> a in i.deleteAcls)
            && Faithful(i.interfaces, routes, e, InterfaceKeyOf, Same<InterfaceConfig>, d.interfaces)
            && Faithful(i.bindings, routes, e, BindingKeyOf, Same<AclBinding>, d.bindings)
            && Faithful(i.deleteBindings, routes, e, BindingKeyOf, Same<AclBinding>, d.deleteBindings)
            && Faithful(i.processes, routes, e, ProcessKeyOf, Same<BgpProcess>, d.processes)
            && Faithful(i.neighbors, routes, e, NeighborKeyOf, Same<BgpNeighbor>, d.neighbors)
            && Faithful(i.deleteNeighbors, routes, e, PeerKeyOf, PeerRecord, d.deleteNeighbors)
            && (forall x :: x in d.deleteInterfaces <==> exists n :: Origin(i.deleteInterfaces, routes, e, Same<string>, x, n))
            && (forall x :: x in d.deleteProcesses <==> exists n :: Origin(i.deleteProcesses, routes, e, Same<string>, x, n))
  {
    var routes := Routes(i.members);
    GlobalsAreFaithful(i, e);
    GatheredIsFaithful(i.interfaces, routes, e, InterfaceKeyOf, Same<InterfaceConfig>);
    GatheredIsFaithful(i.bindings, routes, e, BindingKeyOf, Same<AclBinding>);
    GatheredIsFaithful(i.deleteBindings, routes, e, BindingKeyOf, Same<AclBinding>);
    GatheredIsFaithful(i.processes, routes, e, ProcessKeyOf, Same<BgpProcess>);
    GatheredIsFaithful(i.neighbors, routes, e, NeighborKeyOf, Same<BgpNeighbor>);
    GatheredIsFaithful(i.deleteNeighbors, routes, e, PeerKeyOf, PeerRecord);
    GatheredSetIsFaithful(i.deleteInterfaces, routes, e);
    GatheredSetIsFaithful(i.deleteProcesses, routes, e);
  }

  lemma GatheredSetIsFaithful(items: seq<On<string>>, routes: map<DeviceId, DeviceId>, e: DeviceId)
    ensures forall x :: x in GatheredSet(items, routes, e) <==> exists n :: Origin(items, routes, e, Same<string>, x, n)
  {
    forall x ensures x in GatheredSet(items, routes, e) <==> exists n :: Origin(items, routes, e, Same<string>, x, n) {
      if x in GatheredSet(items, routes, e) {
        var n := GatheredSetAt(items, routes, e, x);
      }
      if n :| Origin(items, routes, e, Same<string>, x, n) {
        GatheredSetReaches(items, routes, e, n);
      }
    }
  }

  lemma GlobalsAreFaithful(i: Intent, e: DeviceId)
    ensures StateFor(i, e).vlans.Keys == VlanIds(i) && StateFor(i, e).acls.Keys == AclIds(i)
  {
    CollectedKeys(i.vlans, VlanKeyOf);
    CollectedKeys(i.acls, AclKeyOf);
  }

  lemma CollectedKeys<T(!new), K(!new)>(items: seq<T>, key: T -> K)
    ensures Collected(items, key).Keys == set x | x in items :: key(x)
  {
    CollectedHolds(items, key);
    forall x | x in items ensures key(x) in Collected(items, key) {
      var n :| 0 <= n < |items| && items[n] == x;
    }
    forall k | k in Collected(items, key) ensures k in (set x | x in items :: key(x)) {
      assert Collected(items, key)[k] in items;
    }
  }

  // ---- The round trip of planned states ----

  lemma GatheredIsKeyed<T, K>(items: seq<On<T>>, routes: map<DeviceId, DeviceId>, e: DeviceId, key: T -> K)
    ensures Keyed(Gathered(items, routes, e, key, Same<T>), key)
  {
    var m := Gathered(items, routes, e, key, Same<T>);
    forall k | k in m ensures key(m[k]) == k {
      var n := GatheredAt(items, routes, e, key, Same<T>, k);
    }
  }

  lemma PlannedIsKeyed(i: Intent, e: DeviceId)
    ensures KeyedState(StateFor(i, e))
  {
    var routes := Routes(i.members);
    CollectedHolds(i.vlans, VlanKeyOf);
    CollectedHolds(i.acls, AclKeyOf);
    GatheredIsKeyed(i.interfaces, routes, e, InterfaceKeyOf);
    GatheredIsKeyed(i.bindings, routes, e, BindingKeyOf);
    GatheredIsKeyed(i.processes, routes, e, ProcessKeyOf);
    GatheredIsKeyed(i.neighbors, routes, e, NeighborKeyOf);
  }

  lemma RuleIsReadable(kind: AclKind, r: AclRule)
    requires RuleOk(kind, r)
    ensures RuleReadable(r)
  {
    if r.source.Some? {
      Ipv4IsNotBlank(r.source.value.address);
      Ipv4IsNotBlank(r.source.value.wildcard);
    }
    if r.destination.Some? {
      Ipv4IsNotBlank(r.destination.value.address);
      Ipv4IsNotBlank(r.destination.value.wildcard);
    }
  }

  lemma AclIsReadable(a: AclConfig)
    requires AclOk(a)
    ensures AclReadable(a)
  {
    forall n | 0 <= n < |a.rules| ensures RuleReadable(a.rules[n]) { RuleIsReadable(a.kind, a.rules[n]); }
  }

  lemma PlannedGlobalsAreReadable(i: Intent, e: DeviceId)
    requires VlansOk(i) && AclsOk(i)
    ensures AllGood(StateFor(i, e).vlans, VlanOk) && AllGood(StateFor(i, e).acls, AclReadable)
  {
    var d := StateFor(i, e);
    CollectedHolds(i.vlans, VlanKeyOf);
    CollectedHolds(i.acls, AclKeyOf);
    forall k | k in d.acls ensures AclReadable(d.acls[k]) {
      var n :| 0 <= n < |i.acls| && i.acls[n] == d.acls[k];
      AclIsReadable(i.acls[n]);
    }
    forall k | k in d.vlans ensures VlanOk(d.vlans[k]) {
      var n :| 0 <= n < |i.vlans| && i.vlans[n] == d.vlans[k];
    }
  }

  lemma DeclaredAclIsOk(i: Intent, id: u16)
    requires AclsOk(i) && id in AclIds(i)
    ensures AclIdOk(id)
  {
    var a :| a in i.acls && a.aclId == id;
    var n :| 0 <= n < |i.acls| && i.acls[n] == a;
    assert AclOk(i.acls[n]);
  }

  lemma GatheredIsGood<T, K>(items: seq<On<T>>, routes: map<DeviceId, DeviceId>, e: DeviceId, key: T -> K, good: T -> bool)
    requires forall n :: 0 <= n < |items| ==> good(items[n].item)
    ensures AllGood(Gathered(items, routes, e, key, Same<T>), good)
  {
    var m := Gathered(items, routes, e, key, Same<T>);
    forall k | k in m ensures good(m[k]) {
      var n := GatheredAt(items, routes, e, key, Same<T>, k);
    }
  }

  lemma PlannedPartsAreReadable(i: Intent, e: DeviceId)
    requires AclsOk(i) && BindingsOk(i) && ProcessesOk(i) && NeighborsOk(i)
    ensures var d := StateFor(i, e);
            AllGood(d.bindings, BindingReadable) && AllGood(d.processes, ProcessReadable) && AllGood(d.neighbors, NeighborReadable)
  {
    var routes := Routes(i.members);
    forall n | 0 <= n < |i.bindings| ensures BindingReadable(i.bindings[n].item) {
      assert BindingOk(MemberIds(i), AclIds(i), i.bindings[n]);
      DeclaredAclIsOk(i, i.bindings[n].item.aclId);
    }
    GatheredIsGood(i.bindings, routes, e, BindingKeyOf, BindingReadable);
    GatheredIsGood(i.processes, routes, e, ProcessKeyOf, ProcessReadable);
    GatheredIsGood(i.neighbors, routes, e, NeighborKeyOf, NeighborReadable);
  }

  /** No wanted object is also asked to go as it is wanted. */
  ghost predicate Unopposed(d: Desired) {
    forall k :: Wanted(d, k).Some? ==> !Leaves(d, k, Wanted(d, k))
  }

  lemma SeparateIsUnopposed(d: Desired)
    requires Separate(d)
    ensures Unopposed(d)
  {
    forall k | Wanted(d, k).Some? ensures !Leaves(d, k, Wanted(d, k)) {
      assert SeparateAt(d, k);
    }
  }

  lemma EchoHasTheWantedMaps(d: Desired)
    ensures var s, n := NormalShadow(ShadowFrom(d)), NormalDesired(d);
            && s.vlans == n.vlans && s.interfaces == n.interfaces && s.acls == n.acls
            && s.bindings == n.bindings && s.processes == n.processes && s.neighbors == n.neighbors
  {
  }

  lemma SameMapsLookAlike(s: Shadow, n: Desired, k: ObjKey)
    requires s.vlans == n.vlans && s.interfaces == n.interfaces && s.acls == n.acls
    requires s.bindings == n.bindings && s.processes == n.processes && s.neighbors == n.neighbors
    ensures Look(s, k) == Wanted(n, k)
  {
  }

  lemma EchoLooksAsWanted(d: Desired, k: ObjKey)
    ensures Look(NormalShadow(ShadowFrom(d)), k) == Wanted(NormalDesired(d), k)
  {
    EchoHasTheWantedMaps(d);
    SameMapsLookAlike(NormalShadow(ShadowFrom(d)), NormalDesired(d), k);
  }

  /** A device that holds exactly the wanted objects needs no change exactly when the request is unopposed. */
  lemma EchoNeedsNothingExactlyWhenUnopposed(d: Desired)
    ensures ChangeSet(d, ShadowFrom(d)) == [] <==> Unopposed(NormalDesired(d))
  {
    var n := NormalDesired(d);
    var c := NormalShadow(ShadowFrom(d));
    NormalDesiredIsCanonical(d);
    NothingToDo(n, c);
    forall k ensures SettledAt(n, k, Look(c, k)) <==> (Wanted(n, k).Some? ==> !Leaves(n, k, Wanted(n, k))) {
      EchoLooksAsWanted(d, k);
    }
  }

  /** The state planned for an endpoint, sent out and reported back as carried out, is read without error as
      the same maps, and needs no change exactly when it is unopposed. */
  lemma PlannedStateEchoes(i: Intent, e: DeviceId)
    requires Valid(i)
    ensures var d := StateFor(i, e);
            && ShadowOf(Echo(d), []) == Ok(ShadowFrom(d))
            && (ChangeSet(d, ShadowFrom(d)) == [] <==> Unopposed(NormalDesired(d)))
  {
    var d := StateFor(i, e);
    PlannedIsKeyed(i, e);
    PlannedGlobalsAreReadable(i, e);
    PlannedPartsAreReadable(i, e);
    EchoTrip(d);
    EchoNeedsNothingExactlyWhenUnopposed(d);
  }

  // ---- References of planned states ----

  lemma RebuildAt<K(!new), V>(le: (K, K) -> bool, m: map<K, V>, norm: V -> V, key: V -> K, k: K) returns (src: K)
    requires TotalOrder(le) && k in Rebuild(le, m, norm, key)
    ensures src in m && norm(m[src]) == Rebuild(le, m, norm, key)[k] && key(norm(m[src])) == k
  {
    RebuildHolds(le, m, norm, key);
    assert ComesFrom(le, m, norm, key, k, Rebuild(le, m, norm, key)[k]);
    src :| src in m && norm(m[src]) == Rebuild(le, m, norm, key)[k] && key(norm(m[src])) == k;
  }

  /** A wanted binding comes from a binding of the request for a member of the endpoint. */
  lemma WantedBindingAt(i: Intent, e: DeviceId, b: string) returns (n: nat)
    requires b in NormalDesired(StateFor(i, e)).bindings
    ensures n < |i.bindings| && RoutedTo(Routes(i.members), i.bindings[n].device, e)
    ensures NormalBinding(i.bindings[n].item) == NormalDesired(StateFor(i, e)).bindings[b]
  {
    var m := StateFor(i, e).bindings;
    StringLeTotal();
    var src := RebuildAt(StringLe, m, NormalBinding, BindingKeyOf, b);
    n := GatheredAt(i.bindings, Routes(i.members), e, BindingKeyOf, Same<AclBinding>, src);
  }

  lemma DeclaredAclIsNotDropped(i: Intent, e: DeviceId, id: u16)
    requires AclsOk(i) && id in AclIds(i)
    ensures id !in StateFor(i, e).deleteAcls
  {
    forall n | 0 <= n < |i.deleteAcls| ensures i.deleteAcls[n] != id {
    }
  }

  lemma DeclaredAclIsWanted(i: Intent, e: DeviceId, id: u16)
    requires id in AclIds(i)
    ensures id in NormalAcls(StateFor(i, e).acls)
  {
    var acls: map<u16, AclConfig> := StateFor(i, e).acls;
    var a :| a in i.acls && a.aclId == id;
    var n :| 0 <= n < |i.acls| && i.acls[n] == a;
    CollectedHolds(i.acls, AclKeyOf);
    assert AclKeyOf(i.acls[n]) in acls;
    U16sAreOrdered();
    RebuildHolds(U16Le, acls, NormalAcl, AclKeyOf);
    assert AclKeyOf(NormalAcl(acls[id])) in NormalAcls(acls);
  }

  lemma BindingNamesAcl(i: Intent, e: DeviceId, b: string)
    requires AclsOk(i) && BindingsOk(i) && b in NormalDesired(StateFor(i, e)).bindings
    ensures var id := NormalDesired(StateFor(i, e)).bindings[b].aclId;
            id in NormalAcls(StateFor(i, e).acls) && id !in StateFor(i, e).deleteAcls
  {
    var n := WantedBindingAt(i, e, b);
    assert BindingOk(MemberIds(i), AclIds(i), i.bindings[n]);
    DeclaredAclIsWanted(i, e, i.bindings[n].item.aclId);
    DeclaredAclIsNotDropped(i, e, i.bindings[n].item.aclId);
  }

  lemma AclNamesAt(d: Desired, c: Shadow)
    requires forall b :: b in d.bindings ==> d.bindings[b].aclId in d.acls && d.bindings[b].aclId !in d.deleteAcls
    ensures NamesExist(AclReferences, d, c) && NamesKept(AclReferences, d)
  {
    forall k | Wanted(d, k).Some? && Names(AclReferences, Wanted(d, k).value).Some?
      ensures Wanted(d, Names(AclReferences, Wanted(d, k).value).value).Some?
      ensures !Dropped(d, Names(AclReferences, Wanted(d, k).value).value)
    {
      assert k.BindingKey? && k.binding in d.bindings;
    }
  }

  /** In a planned state every wanted binding names an ACL that is wanted and not dropped. */
  lemma PlannedBindingsNameAcls(i: Intent, e: DeviceId, c: Shadow)
    requires AclsOk(i) && BindingsOk(i)
    ensures NamesExist(AclReferences, NormalDesired(StateFor(i, e)), c)
    ensures NamesKept(AclReferences, NormalDesired(StateFor(i, e)))
  {
    var d := NormalDesired(StateFor(i, e));
    forall b | b in d.bindings ensures d.bindings[b].aclId in d.acls && d.bindings[b].aclId !in d.deleteAcls {
      BindingNamesAcl(i, e, b);
    }
    AclNamesAt(d, c);
  }

  /** Carrying out the plan of a valid request step by step never leaves a binding without its ACL. */
  lemma ValidRequestNeverDangles(i: Intent, e: DeviceId, current: Shadow, n: nat)
    requires Valid(i) && Supported(AclReferences, NormalShadow(current))
    requires n <= |Staged(ChangeSet(StateFor(i, e), current))|
    ensures Supported(AclReferences, Applied(NormalShadow(current), Staged(ChangeSet(StateFor(i, e), current))[..n]))
  {
    var d := NormalDesired(StateFor(i, e));
    var c := NormalShadow(current);
    NormalDesiredIsCanonical(StateFor(i, e));
    PlannedBindingsNameAcls(i, e, c);
    PlanKeepsSupport(AclReferences, d, c, n);
  }

  // ---- What validation promises about wanting and dropping ----

  lemma PlannedVlansAreSeparate(i: Intent, e: DeviceId, id: u16)
    requires VlansOk(i) && id in NormalDesired(StateFor(i, e)).vlans
    ensures id !in NormalDesired(StateFor(i, e)).deleteVlans
  {
    var d := StateFor(i, e);
    CollectedHolds(i.vlans, VlanKeyOf);
    U16sAreOrdered();
    var src := RebuildAt(U16Le, d.vlans, NormalVlan, VlanKeyOf, id);
    assert d.vlans[src] in i.vlans && d.vlans[src].vlanId == id;
    assert id in VlanIds(i);
  }

  lemma PlannedAclsAreSeparate(i: Intent, e: DeviceId, id: u16)
    requires AclsOk(i) && id in NormalDesired(StateFor(i, e)).acls
    ensures id !in NormalDesired(StateFor(i, e)).deleteAcls
  {
    var d := StateFor(i, e);
    CollectedHolds(i.acls, AclKeyOf);
    U16sAreOrdered();
    var src := RebuildAt(U16Le, d.acls, NormalAcl, AclKeyOf, id);
    assert d.acls[src] in i.acls && d.acls[src].aclId == id;
    assert id in AclIds(i);
    DeclaredAclIsNotDropped(i, e, id);
  }
}
