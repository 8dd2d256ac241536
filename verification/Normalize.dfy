/** Canonical forms of configuration objects and of whole states. */
module Normalize {
  import opened Wrappers
  import opened Text
  import opened Ordering
  import opened ConfigModel

  function BlankToNone(t: Option<string>): Option<string> {
    if t == Some("") then None else t
  }

  function NormalVlan(v: VlanConfig): VlanConfig {
    v.(name := BlankToNone(v.name), description := BlankToNone(v.description))
  }

  function CanonicalName(name: string): string {
    var t := Trim(name);
    if "GigabitEthernet" <= t then "GE" + t[|"GigabitEthernet"|..]
    else if "Ten-GigabitEthernet" <= t then "XGE" + t[|"Ten-GigabitEthernet"|..]
    else if "FortyGigE" <= t then "FGE" + t[|"FortyGigE"|..]
    else t
  }

  predicate U16Le(a: u16, b: u16) { a <= b }

  lemma U16sAreOrdered()
    ensures TotalOrder(U16Le)
  {
  }

  /** Sorted, without duplicates. */
  function SortedVlans(vlans: seq<u16>): (r: seq<u16>)
    ensures (forall v :: v in r <==> v in vlans) && Ascending(U16Le, r)
  {
    U16sAreOrdered();
    Listed(U16Le, set v | v in vlans)
  }

  function NormalMode(m: PortMode): PortMode {
    match m
    case Access(_) => m
    case Trunk(native, allowed) => Trunk(native, SortedVlans(allowed))
  }

  function NormalInterface(i: InterfaceConfig): InterfaceConfig {
    InterfaceConfig(CanonicalName(i.name), i.adminState, BlankToNone(i.description), NormalMode(i.mode))
  }

  function NormalRule(r: AclRule): AclRule {
    r.(description := BlankToNone(r.description))
  }

  function InsertRule(r: AclRule, rs: seq<AclRule>): seq<AclRule> {
    if rs == [] || r.sequence <= rs[0].sequence then [r] + rs else [rs[0]] + InsertRule(r, rs[1..])
  }

  /** Sorted by sequence number; rules with equal numbers keep their order. */
  function SortRules(rs: seq<AclRule>): seq<AclRule> {
    if rs == [] then [] else InsertRule(rs[0], SortRules(rs[1..]))
  }

  function NormalRules(rs: seq<AclRule>): seq<AclRule> {
    SortRules(seq(|rs|, i requires 0 <= i < |rs| => NormalRule(rs[i])))
  }

  function NormalAcl(a: AclConfig): AclConfig {
    AclConfig(a.aclId, a.kind, BlankToNone(a.name), BlankToNone(a.description), NormalRules(a.rules))
  }

  function NormalBinding(b: AclBinding): AclBinding {
    b.(interfaceName := CanonicalName(b.interfaceName))
  }

  function NormalProcess(p: BgpProcess): BgpProcess {
    p.(vrf := Trim(p.vrf), routerId := BlankToNone(p.routerId))
  }

  function NormalNeighbor(n: BgpNeighbor): BgpNeighbor {
    BgpNeighbor(Trim(n.vrf), Trim(n.address), n.remoteAs, BlankToNone(n.description),
                BlankToNone(n.importPolicy), BlankToNone(n.exportPolicy))
  }

  // ---- Rebuilding an ordered map under normalised keys ----

  /** The entries at the given keys, normalised and inserted one after the other: on a clash of
      normalised keys the later entry wins. */
  function RebuildFrom<K(==), V>(keys: seq<K>, m: map<K, V>, norm: V -> V, key: V -> K): map<K, V>
    requires forall k :: k in keys ==> k in m
  {
    if keys == [] then map[]
    else
      var n := |keys| - 1;
      var v := norm(m[keys[n]]);
      RebuildFrom(keys[..n], m, norm, key)[key(v) := v]
  }

  function Rebuild<K(==, !new), V>(le: (K, K) -> bool, m: map<K, V>, norm: V -> V, key: V -> K): map<K, V>
    requires TotalOrder(le)
  {
    RebuildFrom(Listed(le, m.Keys), m, norm, key)
  }

  /** Every entry is in normal form and kept under its own key. */
  ghost predicate Canonical<K, V>(m: map<K, V>, norm: V -> V, key: V -> K) {
    forall k :: k in m ==> key(m[k]) == k && norm(m[k]) == m[k]
  }

  /** What a rebuilt map holds: for each normalised key the last entry, in key order, that has it. */
  ghost predicate ComesFrom<K(!new), V>(le: (K, K) -> bool, m: map<K, V>, norm: V -> V, key: V -> K, k: K, v: V) {
    exists src :: && src in m && norm(m[src]) == v && key(v) == k
                  && forall other :: other in m && key(norm(m[other])) == k ==> le(other, src)
  }

  /** An entry of a rebuilt map comes from the last of the given keys that leads to it. */
  lemma {:induction false} RebuildFromAt<K, V>(keys: seq<K>, m: map<K, V>, norm: V -> V, key: V -> K, k: K) returns (i: nat)
    requires forall x :: x in keys ==> x in m
    requires k in RebuildFrom(keys, m, norm, key)
    ensures i < |keys| && norm(m[keys[i]]) == RebuildFrom(keys, m, norm, key)[k] && key(norm(m[keys[i]])) == k
    ensures forall j :: i < j < |keys| ==> key(norm(m[keys[j]])) != k
  {
    var n := |keys| - 1;
    if k == key(norm(m[keys[n]])) {
      i := n;
    } else {
      var front := keys[..n];
      i := RebuildFromAt(front, m, norm, key, k);
      assert forall j :: 0 <= j < n ==> front[j] == keys[j];
    }
  }

  lemma {:induction false} RebuildFromHas<K, V>(keys: seq<K>, m: map<K, V>, norm: V -> V, key: V -> K, i: nat)
    requires (forall x :: x in keys ==> x in m) && i < |keys|
    ensures key(norm(m[keys[i]])) in RebuildFrom(keys, m, norm, key)
  {
    var n := |keys| - 1;
    if i < n {
      assert keys[..n][i] == keys[i];
      RebuildFromHas(keys[..n], m, norm, key, i);
    }
  }

  /** A rebuilt map has exactly the normalised keys, and at each the last entry in key order. */
  lemma RebuildHolds<K(!new), V>(le: (K, K) -> bool, m: map<K, V>, norm: V -> V, key: V -> K)
    requires TotalOrder(le)
    ensures var r := Rebuild(le, m, norm, key);
            && (forall k :: k in r ==> ComesFrom(le, m, norm, key, k, r[k]))
            && (forall src :: src in m ==> key(norm(m[src])) in r)
  {
    var keys := Listed(le, m.Keys);
    var r := Rebuild(le, m, norm, key);
    forall k | k in r ensures ComesFrom(le, m, norm, key, k, r[k]) {
      var i := RebuildFromAt(keys, m, norm, key, k);
      LastIsHighest(le, m, norm, key, keys, i, k);
    }
    forall src | src in m ensures key(norm(m[src])) in r {
      assert src in keys;
      var i :| 0 <= i < |keys| && keys[i] == src;
      RebuildFromHas(keys, m, norm, key, i);
    }
  }

  lemma LastIsHighest<K(!new), V>(le: (K, K) -> bool, m: map<K, V>, norm: V -> V, key: V -> K, keys: seq<K>, i: nat, k: K)
    requires TotalOrder(le) && Ascending(le, keys) && (forall x :: x in keys <==> x in m) && i < |keys|
    requires key(norm(m[keys[i]])) == k && forall j :: i < j < |keys| ==> key(norm(m[keys[j]])) != k
    ensures ComesFrom(le, m, norm, key, k, norm(m[keys[i]]))
  {
    forall other | other in m && key(norm(m[other])) == k ensures le(other, keys[i]) {
      assert other in keys;
      var j :| 0 <= j < |keys| && keys[j] == other;
      assert j <= i;
    }
  }

  /** Rebuilding gives a canonical map, and leaves a canonical map alone. */
  lemma RebuildIsCanonical<K(!new), V>(le: (K, K) -> bool, m: map<K, V>, norm: V -> V, key: V -> K)
    requires TotalOrder(le) && forall v: V | v in m.Values :: norm(norm(v)) == norm(v)
    ensures Canonical(Rebuild(le, m, norm, key), norm, key)
    ensures Canonical(m, norm, key) ==> Rebuild(le, m, norm, key) == m
  {
    var r := Rebuild(le, m, norm, key);
    RebuildHolds(le, m, norm, key);
    forall k | k in r ensures key(r[k]) == k && norm(r[k]) == r[k] {
      var src :| src in m && norm(m[src]) == r[k] && key(r[k]) == k;
      assert m[src] in m.Values;
    }
    if Canonical(m, norm, key) {
      forall k | k in m ensures k in r {
        assert key(norm(m[k])) == k;
      }
      forall k | k in r ensures k in m && r[k] == m[k] {
        var src :| src in m && norm(m[src]) == r[k] && key(r[k]) == k;
      }
    }
  }

  // ---- Every object has one canonical form ----

  lemma CanonicalNameIsFixed(name: string)
    ensures CanonicalName(CanonicalName(name)) == CanonicalName(name)
  {
    var c := CanonicalName(name);
    TrimIsTrimmed(name);
    CanonicalNameIsTrimmed(name);
    TrimmedStays(c);
    if "GigabitEthernet" <= Trim(name) {
      assert c[1] == 'E';
    } else if "Ten-GigabitEthernet" <= Trim(name) {
      assert c[0] == 'X';
    } else if "FortyGigE" <= Trim(name) {
      assert c[1] == 'G';
    }
  }

  lemma CanonicalNameIsTrimmed(name: string)
    ensures IsTrimmed(CanonicalName(name))
  {
    var t := Trim(name);
    var c := CanonicalName(name);
    TrimIsTrimmed(name);
    if c != t {
      assert !IsSpace(c[0]);
      assert t[|t| - 1] == c[|c| - 1] || !IsSpace(c[|c| - 1]);
    }
  }

  lemma SortedVlansIsFixed(vlans: seq<u16>)
    ensures SortedVlans(SortedVlans(vlans)) == SortedVlans(vlans)
  {
    U16sAreOrdered();
    var r := SortedVlans(vlans);
    ListedIsUnique(U16Le, (set v | v in r), r);
  }

  ghost predicate InSequence(rs: seq<AclRule>) {
    forall i, j :: 0 <= i < j < |rs| ==> rs[i].sequence <= rs[j].sequence
  }

  lemma {:induction false} InsertKeepsSequence(r: AclRule, rs: seq<AclRule>)
    requires InSequence(rs)
    ensures InSequence(InsertRule(r, rs))
  {
    if rs != [] && r.sequence > rs[0].sequence {
      InsertKeepsSequence(r, rs[1..]);
      var rest := InsertRule(r, rs[1..]);
      InsertKeepsRules(r, rs[1..]);
      forall j | 0 <= j < |rest| ensures rs[0].sequence <= rest[j].sequence {
        assert rest[j] in multiset(rest);
        assert rest[j] == r || rest[j] in rs[1..];
      }
    }
  }

  lemma {:induction false} InsertKeepsRules(r: AclRule, rs: seq<AclRule>)
    ensures multiset(InsertRule(r, rs)) == multiset(rs) + multiset{r}
  {
    if rs != [] && r.sequence > rs[0].sequence {
      InsertKeepsRules(r, rs[1..]);
      assert rs == [rs[0]] + rs[1..];
    }
  }

  /** Sorting puts the rules in sequence and keeps every rule. */
  lemma {:induction false} SortPutsInSequence(rs: seq<AclRule>)
    ensures InSequence(SortRules(rs)) && multiset(SortRules(rs)) == multiset(rs)
  {
    if rs != [] {
      SortPutsInSequence(rs[1..]);
      InsertKeepsSequence(rs[0], SortRules(rs[1..]));
      InsertKeepsRules(rs[0], SortRules(rs[1..]));
      assert rs == [rs[0]] + rs[1..];
    }
  }

  lemma {:induction false} InSequenceStays(rs: seq<AclRule>)
    requires InSequence(rs)
    ensures SortRules(rs) == rs
  {
    if rs != [] {
      InSequenceStays(rs[1..]);
    }
  }

  /** The rules with one sequence number, in their order. */
  function Numbered(rs: seq<AclRule>, n: u16): seq<AclRule> {
    if rs == [] then [] else (if rs[0].sequence == n then [rs[0]] else []) + Numbered(rs[1..], n)
  }

  lemma {:induction false} InsertIsStable(r: AclRule, rs: seq<AclRule>, n: u16)
    requires InSequence(rs)
    ensures Numbered(InsertRule(r, rs), n) == Numbered([r] + rs, n)
  {
    assert ([r] + rs)[1..] == rs;
    if rs != [] && r.sequence > rs[0].sequence {
      var rest := InsertRule(r, rs[1..]);
      InsertIsStable(r, rs[1..], n);
      assert ([r] + rs[1..])[1..] == rs[1..];
      assert ([rs[0]] + rest)[1..] == rest;
    }
  }

  /** Rules with equal sequence numbers keep their order. */
  lemma {:induction false} SortIsStable(rs: seq<AclRule>, n: u16)
    ensures Numbered(SortRules(rs), n) == Numbered(rs, n)
  {
    if rs != [] {
      SortIsStable(rs[1..], n);
      SortPutsInSequence(rs[1..]);
      InsertIsStable(rs[0], SortRules(rs[1..]), n);
      assert ([rs[0]] + SortRules(rs[1..]))[1..] == SortRules(rs[1..]);
    }
  }

  lemma NormalRulesIsFixed(rs: seq<AclRule>)
    ensures NormalRules(NormalRules(rs)) == NormalRules(rs)
  {
    var ns := seq(|rs|, i requires 0 <= i < |rs| => NormalRule(rs[i]));
    var r := SortRules(ns);
    SortPutsInSequence(ns);
    forall i | 0 <= i < |r| ensures NormalRule(r[i]) == r[i] {
      assert r[i] in multiset(r);
      assert r[i] in ns;
    }
    assert r == seq(|r|, i requires 0 <= i < |r| => NormalRule(r[i]));
    InSequenceStays(r);
  }

  /** Normalising any object twice is the same as once. */
  lemma ObjectsHaveOneForm()
    ensures forall v :: NormalVlan(NormalVlan(v)) == NormalVlan(v)
    ensures forall i :: NormalInterface(NormalInterface(i)) == NormalInterface(i)
    ensures forall a :: NormalAcl(NormalAcl(a)) == NormalAcl(a)
    ensures forall b :: NormalBinding(NormalBinding(b)) == NormalBinding(b)
    ensures forall p :: NormalProcess(NormalProcess(p)) == NormalProcess(p)
    ensures forall n :: NormalNeighbor(NormalNeighbor(n)) == NormalNeighbor(n)
  {
    forall i ensures NormalInterface(NormalInterface(i)) == NormalInterface(i) {
      CanonicalNameIsFixed(i.name);
      if i.mode.Trunk? { SortedVlansIsFixed(i.mode.allowedVlans); }
    }
    forall a ensures NormalAcl(NormalAcl(a)) == NormalAcl(a) { NormalRulesIsFixed(a.rules); }
    forall b ensures NormalBinding(NormalBinding(b)) == NormalBinding(b) { CanonicalNameIsFixed(b.interfaceName); }
    forall p ensures NormalProcess(NormalProcess(p)) == NormalProcess(p) { TrimIsTrimmed(p.vrf); }
    forall n ensures NormalNeighbor(NormalNeighbor(n)) == NormalNeighbor(n) {
      TrimIsTrimmed(n.vrf);
      TrimIsTrimmed(n.address);
    }
  }

  // ---- Whole states ----

  function NormalVlans(m: map<u16, VlanConfig>): map<u16, VlanConfig> {
    U16sAreOrdered();
    Rebuild(U16Le, m, NormalVlan, VlanKeyOf)
  }

  function NormalInterfaces(m: map<string, InterfaceConfig>): map<string, InterfaceConfig> {
    StringLeTotal();
    Rebuild(StringLe, m, NormalInterface, InterfaceKeyOf)
  }

  function NormalAcls(m: map<u16, AclConfig>): map<u16, AclConfig> {
    U16sAreOrdered();
    Rebuild(U16Le, m, NormalAcl, AclKeyOf)
  }

  function NormalBindings(m: map<string, AclBinding>): map<string, AclBinding> {
    StringLeTotal();
    Rebuild(StringLe, m, NormalBinding, BindingKeyOf)
  }

  function NormalProcesses(m: map<string, BgpProcess>): map<string, BgpProcess> {
    StringLeTotal();
    Rebuild(StringLe, m, NormalProcess, ProcessKeyOf)
  }

  function NormalNeighbors(m: map<string, BgpNeighbor>): map<string, BgpNeighbor> {
    StringLeTotal();
    Rebuild(StringLe, m, NormalNeighbor, NeighborKeyOf)
  }

  function NormalDesired(d: Desired): Desired {
    Desired(
      d.deviceId,
      NormalVlans(d.vlans),
      NormalInterfaces(d.interfaces),
      NormalAcls(d.acls),
      NormalBindings(d.bindings),
      (set p | p in d.routePolicyRefs && Trim(p) != "" :: Trim(p)),
      NormalProcesses(d.processes),
      NormalNeighbors(d.neighbors),
      d.deleteVlans,
      (set n | n in d.deleteInterfaces :: CanonicalName(n)),
      d.deleteAcls,
      NormalBindings(d.deleteBindings),
      (set v | v in d.deleteProcesses :: Trim(v)),
      NormalNeighbors(d.deleteNeighbors))
  }

  function NormalShadow(s: Shadow): Shadow {
    s.(vlans := NormalVlans(s.vlans),
       interfaces := NormalInterfaces(s.interfaces),
       acls := NormalAcls(s.acls),
       bindings := NormalBindings(s.bindings),
       processes := NormalProcesses(s.processes),
       neighbors := NormalNeighbors(s.neighbors))
  }

  /** Every object of the state is in normal form and under its own key. */
  ghost predicate CanonicalShadow(s: Shadow) {
    && Canonical(s.vlans, NormalVlan, VlanKeyOf)
    && Canonical(s.interfaces, NormalInterface, InterfaceKeyOf)
    && Canonical(s.acls, NormalAcl, AclKeyOf)
    && Canonical(s.bindings, NormalBinding, BindingKeyOf)
    && Canonical(s.processes, NormalProcess, ProcessKeyOf)
    && Canonical(s.neighbors, NormalNeighbor, NeighborKeyOf)
  }

  ghost predicate CanonicalDesired(d: Desired) {
    && Canonical(d.vlans, NormalVlan, VlanKeyOf)
    && Canonical(d.interfaces, NormalInterface, InterfaceKeyOf)
    && Canonical(d.acls, NormalAcl, AclKeyOf)
    && Canonical(d.bindings, NormalBinding, BindingKeyOf)
    && Canonical(d.processes, NormalProcess, ProcessKeyOf)
    && Canonical(d.neighbors, NormalNeighbor, NeighborKeyOf)
    && Canonical(d.deleteBindings, NormalBinding, BindingKeyOf)
    && Canonical(d.deleteNeighbors, NormalNeighbor, NeighborKeyOf)
  }

  /** The normal form of each map is canonical, and a canonical map is its own normal form. */
  lemma VlansHaveOneForm(m: map<u16, VlanConfig>)
    ensures Canonical(NormalVlans(m), NormalVlan, VlanKeyOf)
    ensures Canonical(m, NormalVlan, VlanKeyOf) ==> NormalVlans(m) == m
  {
    ObjectsHaveOneForm();
    U16sAreOrdered();
    RebuildIsCanonical(U16Le, m, NormalVlan, VlanKeyOf);
  }

  lemma InterfacesHaveOneForm(m: map<string, InterfaceConfig>)
    ensures Canonical(NormalInterfaces(m), NormalInterface, InterfaceKeyOf)
    ensures Canonical(m, NormalInterface, InterfaceKeyOf) ==> NormalInterfaces(m) == m
  {
    ObjectsHaveOneForm();
    StringLeTotal();
    RebuildIsCanonical(StringLe, m, NormalInterface, InterfaceKeyOf);
  }

  lemma AclsHaveOneForm(m: map<u16, AclConfig>)
    ensures Canonical(NormalAcls(m), NormalAcl, AclKeyOf)
    ensures Canonical(m, NormalAcl, AclKeyOf) ==> NormalAcls(m) == m
  {
    ObjectsHaveOneForm();
    U16sAreOrdered();
    RebuildIsCanonical(U16Le, m, NormalAcl, AclKeyOf);
  }

  lemma BindingsHaveOneForm(m: map<string, AclBinding>)
    ensures Canonical(NormalBindings(m), NormalBinding, BindingKeyOf)
    ensures Canonical(m, NormalBinding, BindingKeyOf) ==> NormalBindings(m) == m
  {
    ObjectsHaveOneForm();
    StringLeTotal();
    RebuildIsCanonical(StringLe, m, NormalBinding, BindingKeyOf);
  }

  lemma ProcessesHaveOneForm(m: map<string, BgpProcess>)
    ensures Canonical(NormalProcesses(m), NormalProcess, ProcessKeyOf)
    ensures Canonical(m, NormalProcess, ProcessKeyOf) ==> NormalProcesses(m) == m
  {
    ObjectsHaveOneForm();
    StringLeTotal();
    RebuildIsCanonical(StringLe, m, NormalProcess, ProcessKeyOf);
  }

  lemma NeighborsHaveOneForm(m: map<string, BgpNeighbor>)
    ensures Canonical(NormalNeighbors(m), NormalNeighbor, NeighborKeyOf)
    ensures Canonical(m, NormalNeighbor, NeighborKeyOf) ==> NormalNeighbors(m) == m
  {
    ObjectsHaveOneForm();
    StringLeTotal();
    RebuildIsCanonical(StringLe, m, NormalNeighbor, NeighborKeyOf);
  }

  /** A normalised state is canonical, and a state is its own normal form exactly when it is canonical. */
  lemma NormalShadowIsCanonical(s: Shadow)
    ensures CanonicalShadow(NormalShadow(s))
    ensures NormalShadow(s) == s <==> CanonicalShadow(s)
  {
    VlansHaveOneForm(s.vlans);
    InterfacesHaveOneForm(s.interfaces);
    AclsHaveOneForm(s.acls);
    BindingsHaveOneForm(s.bindings);
    ProcessesHaveOneForm(s.processes);
    NeighborsHaveOneForm(s.neighbors);
  }

  lemma NormalDesiredIsCanonical(d: Desired)
    ensures CanonicalDesired(NormalDesired(d))
  {
    VlansHaveOneForm(d.vlans);
    InterfacesHaveOneForm(d.interfaces);
    AclsHaveOneForm(d.acls);
    BindingsHaveOneForm(d.bindings);
    ProcessesHaveOneForm(d.processes);
    NeighborsHaveOneForm(d.neighbors);
    BindingsHaveOneForm(d.deleteBindings);
    NeighborsHaveOneForm(d.deleteNeighbors);
  }

  /** Normalising a desired state twice is the same as once. */
  lemma NormalDesiredIsFixed(d: Desired)
    ensures NormalDesired(NormalDesired(d)) == NormalDesired(d)
  {
    var n := NormalDesired(d);
    NormalDesiredIsCanonical(d);
    VlansHaveOneForm(n.vlans);
    InterfacesHaveOneForm(n.interfaces);
    AclsHaveOneForm(n.acls);
    BindingsHaveOneForm(n.bindings);
    ProcessesHaveOneForm(n.processes);
    NeighborsHaveOneForm(n.neighbors);
    BindingsHaveOneForm(n.deleteBindings);
    NeighborsHaveOneForm(n.deleteNeighbors);
    SetsHaveOneForm(d);
  }

  lemma SetsHaveOneForm(d: Desired)
    ensures var n := NormalDesired(d);
            var nn := NormalDesired(n);
            && nn.routePolicyRefs == n.routePolicyRefs && nn.deleteInterfaces == n.deleteInterfaces
            && nn.deleteProcesses == n.deleteProcesses
  {
    var n := NormalDesired(d);
    var nn := NormalDesired(n);
    forall p: string ensures Trim(Trim(p)) == Trim(p) { TrimIsTrimmed(p); }
    forall p: string ensures CanonicalName(CanonicalName(p)) == CanonicalName(p) { CanonicalNameIsFixed(p); }
    assert nn.deleteProcesses == n.deleteProcesses by {
      forall x | x in n.deleteProcesses ensures x in nn.deleteProcesses { assert Trim(x) == x; }
    }
    assert nn.deleteInterfaces == n.deleteInterfaces by {
      forall x | x in n.deleteInterfaces ensures x in nn.deleteInterfaces { assert CanonicalName(x) == x; }
    }
    assert nn.routePolicyRefs == n.routePolicyRefs by {
      forall x | x in n.routePolicyRefs ensures x in nn.routePolicyRefs { assert Trim(x) == x; }
    }
  }
}
