/** The objects of a device under one name space, and what a change does to each of them. */
module Objects {
  import opened Wrappers
  import opened ConfigModel

  datatype ObjKey =
    | VlanKey(vlanId: u16)
    | InterfaceKey(name: string)
    | AclKey(aclId: u16)
    | BindingKey(binding: string)
    | ProcessKey(vrf: string)
    | NeighborKey(neighbor: string)

  datatype Obj =
    | VlanObj(vlan: VlanConfig)
    | InterfaceObj(port: InterfaceConfig)
    | AclObj(acl: AclConfig)
    | BindingObj(bound: AclBinding)
    | ProcessObj(process: BgpProcess)
    | NeighborObj(peer: BgpNeighbor)

  function KeyOf(o: Obj): ObjKey {
    match o
    case VlanObj(v) => VlanKey(VlanKeyOf(v))
    case InterfaceObj(i) => InterfaceKey(InterfaceKeyOf(i))
    case AclObj(a) => AclKey(AclKeyOf(a))
    case BindingObj(b) => BindingKey(BindingKeyOf(b))
    case ProcessObj(p) => ProcessKey(ProcessKeyOf(p))
    case NeighborObj(n) => NeighborKey(NeighborKeyOf(n))
  }

  /** The object a state holds under a key. */
  function Look(s: Shadow, k: ObjKey): Option<Obj> {
    match k
    case VlanKey(id) => if id in s.vlans then Some(VlanObj(s.vlans[id])) else None
    case InterfaceKey(n) => if n in s.interfaces then Some(InterfaceObj(s.interfaces[n])) else None
    case AclKey(id) => if id in s.acls then Some(AclObj(s.acls[id])) else None
    case BindingKey(b) => if b in s.bindings then Some(BindingObj(s.bindings[b])) else None
    case ProcessKey(v) => if v in s.processes then Some(ProcessObj(s.processes[v])) else None
    case NeighborKey(n) => if n in s.neighbors then Some(NeighborObj(s.neighbors[n])) else None
  }

  /** Two states hold the same objects exactly when they agree under every key. */
  lemma LookDetermines(s: Shadow, t: Shadow)
    ensures SameContents(s, t) <==> forall k :: Look(s, k) == Look(t, k)
  {
    if forall k :: Look(s, k) == Look(t, k) {
      forall id ensures (id in s.vlans <==> id in t.vlans) && (id in s.vlans ==> s.vlans[id] == t.vlans[id]) {
        assert Look(s, VlanKey(id)) == Look(t, VlanKey(id));
      }
      forall n ensures (n in s.interfaces <==> n in t.interfaces) && (n in s.interfaces ==> s.interfaces[n] == t.interfaces[n]) {
        assert Look(s, InterfaceKey(n)) == Look(t, InterfaceKey(n));
      }
      forall id ensures (id in s.acls <==> id in t.acls) && (id in s.acls ==> s.acls[id] == t.acls[id]) {
        assert Look(s, AclKey(id)) == Look(t, AclKey(id));
      }
      forall b ensures (b in s.bindings <==> b in t.bindings) && (b in s.bindings ==> s.bindings[b] == t.bindings[b]) {
        assert Look(s, BindingKey(b)) == Look(t, BindingKey(b));
      }
      forall v ensures (v in s.processes <==> v in t.processes) && (v in s.processes ==> s.processes[v] == t.processes[v]) {
        assert Look(s, ProcessKey(v)) == Look(t, ProcessKey(v));
      }
      forall n ensures (n in s.neighbors <==> n in t.neighbors) && (n in s.neighbors ==> s.neighbors[n] == t.neighbors[n]) {
        assert Look(s, NeighborKey(n)) == Look(t, NeighborKey(n));
      }
    }
  }

  datatype ChangeOp =
    | CreateVlan(vlan: VlanConfig)
    | UpdateVlan(vlanBefore: VlanConfig, vlanAfter: VlanConfig)
    | DeleteVlan(vlanId: u16)
    | UpdateInterface(portBefore: Option<InterfaceConfig>, portAfter: InterfaceConfig)
    | DeleteInterface(name: string)
    | CreateAcl(acl: AclConfig)
    | UpdateAcl(aclBefore: AclConfig, aclAfter: AclConfig)
    | DeleteAcl(aclId: u16)
    | CreateBinding(binding: AclBinding)
    | UpdateBinding(bindingBefore: AclBinding, bindingAfter: AclBinding)
    | DeleteBinding(interfaceName: string, direction: AclDirection, boundAcl: u16)
    | CreateProcess(process: BgpProcess)
    | UpdateProcess(processBefore: BgpProcess, processAfter: BgpProcess)
    | DeleteProcess(vrf: string)
    | CreateNeighbor(neighbor: BgpNeighbor)
    | UpdateNeighbor(neighborBefore: BgpNeighbor, neighborAfter: BgpNeighbor)
    | DeleteNeighbor(neighborVrf: string, address: string)

  /** What an operation means: one object gets a value, or one object goes. */
  datatype Effect = Put(obj: Obj) | Del(key: ObjKey)

  function EffectOf(op: ChangeOp): Effect {
    match op
    case CreateVlan(v) => Put(VlanObj(v))
    case UpdateVlan(_, v) => Put(VlanObj(v))
    case DeleteVlan(id) => Del(VlanKey(id))
    case UpdateInterface(_, i) => Put(InterfaceObj(i))
    case DeleteInterface(n) => Del(InterfaceKey(n))
    case CreateAcl(a) => Put(AclObj(a))
    case UpdateAcl(_, a) => Put(AclObj(a))
    case DeleteAcl(id) => Del(AclKey(id))
    case CreateBinding(b) => Put(BindingObj(b))
    case UpdateBinding(_, b) => Put(BindingObj(b))
    case DeleteBinding(n, dir, _) => Del(BindingKey(AclBindingKey(n, dir)))
    case CreateProcess(p) => Put(ProcessObj(p))
    case UpdateProcess(_, p) => Put(ProcessObj(p))
    case DeleteProcess(v) => Del(ProcessKey(v))
    case CreateNeighbor(n) => Put(NeighborObj(n))
    case UpdateNeighbor(_, n) => Put(NeighborObj(n))
    case DeleteNeighbor(v, a) => Del(NeighborKey(BgpNeighborKey(v, a)))
  }

  function TargetOf(op: ChangeOp): ObjKey {
    match EffectOf(op)
    case Put(o) => KeyOf(o)
    case Del(k) => k
  }

  /** Objects that go with the object under a key: the bindings of an ACL, the neighbours of a BGP process. */
  predicate Carries(k: ObjKey, o: Obj) {
    match k
    case AclKey(id) => o.BindingObj? && o.bound.aclId == id
    case ProcessKey(v) => o.NeighborObj? && o.peer.vrf == v
    case _ => false
  }

  /** What one effect leaves under a key that held `cur`. */
  function After(cur: Option<Obj>, k: ObjKey, e: Effect): Option<Obj> {
    match e
    case Put(o) => if KeyOf(o) == k then Some(o) else cur
    case Del(d) => if d == k || (cur.Some? && Carries(d, cur.value)) then None else cur
  }

  /** What a sequence of operations leaves under a key that held `cur`. */
  function Fate(cur: Option<Obj>, k: ObjKey, ops: seq<ChangeOp>): Option<Obj> {
    if ops == [] then cur
    else
      var n := |ops| - 1;
      After(Fate(cur, k, ops[..n]), k, EffectOf(ops[n]))
  }

  // ---- Operations on the recorded state ----

  function WithoutAcl(s: Shadow, id: u16): Shadow {
    s.(acls := s.acls - {id},
       bindings := map b | b in s.bindings && s.bindings[b].aclId != id :: s.bindings[b])
  }

  function WithoutProcess(s: Shadow, vrf: string): Shadow {
    s.(processes := s.processes - {vrf},
       neighbors := map n | n in s.neighbors && s.neighbors[n].vrf != vrf :: s.neighbors[n])
  }

  function ApplyOp(s: Shadow, op: ChangeOp): Shadow {
    match op
    case CreateVlan(v) => s.(vlans := s.vlans[v.vlanId := v])
    case UpdateVlan(_, v) => s.(vlans := s.vlans[v.vlanId := v])
    case DeleteVlan(id) => s.(vlans := s.vlans - {id})
    case UpdateInterface(_, i) => s.(interfaces := s.interfaces[i.name := i])
    case DeleteInterface(n) => s.(interfaces := s.interfaces - {n})
    case CreateAcl(a) => s.(acls := s.acls[a.aclId := a])
    case UpdateAcl(_, a) => s.(acls := s.acls[a.aclId := a])
    case DeleteAcl(id) => WithoutAcl(s, id)
    case CreateBinding(b) => s.(bindings := s.bindings[BindingKeyOf(b) := b])
    case UpdateBinding(_, b) => s.(bindings := s.bindings[BindingKeyOf(b) := b])
    case DeleteBinding(n, dir, _) => s.(bindings := s.bindings - {AclBindingKey(n, dir)})
    case CreateProcess(p) => s.(processes := s.processes[p.vrf := p])
    case UpdateProcess(_, p) => s.(processes := s.processes[p.vrf := p])
    case DeleteProcess(v) => WithoutProcess(s, v)
    case CreateNeighbor(n) => s.(neighbors := s.neighbors[NeighborKeyOf(n) := n])
    case UpdateNeighbor(_, n) => s.(neighbors := s.neighbors[NeighborKeyOf(n) := n])
    case DeleteNeighbor(v, a) => s.(neighbors := s.neighbors - {BgpNeighborKey(v, a)})
  }

  function Applied(s: Shadow, ops: seq<ChangeOp>): Shadow {
    if ops == [] then s
    else
      var n := |ops| - 1;
      ApplyOp(Applied(s, ops[..n]), ops[n])
  }

  lemma PutActsOnEachObject(s: Shadow, op: ChangeOp, k: ObjKey)
    requires EffectOf(op).Put?
    ensures Look(ApplyOp(s, op), k) == After(Look(s, k), k, EffectOf(op))
  {
  }

  lemma DelActsOnEachObject(s: Shadow, op: ChangeOp, k: ObjKey)
    requires EffectOf(op).Del?
    ensures Look(ApplyOp(s, op), k) == After(Look(s, k), k, EffectOf(op))
  {
  }

  /** An operation does to every object what its effect says. */
  lemma ApplyOpActsOnEachObject(s: Shadow, op: ChangeOp, k: ObjKey)
    ensures Look(ApplyOp(s, op), k) == After(Look(s, k), k, EffectOf(op))
  {
    if EffectOf(op).Put? { PutActsOnEachObject(s, op, k); } else { DelActsOnEachObject(s, op, k); }
  }

  /** Operations act on every object separately: what is under a key afterwards depends only on
      what was under it before. */
  lemma {:induction false} AppliedActsOnEachObject(s: Shadow, ops: seq<ChangeOp>, k: ObjKey)
    ensures Look(Applied(s, ops), k) == Fate(Look(s, k), k, ops)
  {
    if ops != [] {
      var n := |ops| - 1;
      AppliedActsOnEachObject(s, ops[..n], k);
      ApplyOpActsOnEachObject(Applied(s, ops[..n]), ops[n], k);
    }
  }

  /** The recorded state after a change set: the operations in order on the base, or on nothing. */
  function ShadowAfter(base: Option<Shadow>, desired: Desired, revision: nat, ops: seq<ChangeOp>): Shadow {
    var start := if base.Some? then base.value else EmptyShadow(desired.deviceId);
    Applied(start.(deviceId := desired.deviceId, revision := revision, warnings := []), ops)
  }

  predicate SameRest(s: Shadow, t: Shadow) { t.deviceId == s.deviceId && t.revision == s.revision && t.warnings == s.warnings }

  lemma ApplyOpKeepsTheRest(s: Shadow, op: ChangeOp)
    ensures SameRest(s, ApplyOp(s, op))
  {
  }

  lemma {:induction false} AppliedKeepsTheRest(s: Shadow, ops: seq<ChangeOp>)
    ensures SameRest(s, Applied(s, ops))
  {
    if ops != [] {
      var t := Applied(s, ops[..|ops| - 1]);
      AppliedKeepsTheRest(s, ops[..|ops| - 1]);
      ApplyOpKeepsTheRest(t, ops[|ops| - 1]);
      assert SameRest(s, ApplyOp(t, ops[|ops| - 1]));
    }
  }

  lemma ShadowAfterHolds(base: Option<Shadow>, desired: Desired, revision: nat, ops: seq<ChangeOp>, k: ObjKey)
    ensures var t := ShadowAfter(base, desired, revision, ops);
            && t.deviceId == desired.deviceId && t.revision == revision && t.warnings == []
            && Look(t, k) == Fate(if base.Some? then Look(base.value, k) else None, k, ops)
  {
    var start := if base.Some? then base.value else EmptyShadow(desired.deviceId);
    var s := start.(deviceId := desired.deviceId, revision := revision, warnings := []);
    AppliedKeepsTheRest(s, ops);
    AppliedActsOnEachObject(s, ops, k);
  }

  /** The change set on the base, or on nothing: every object has the fate the operations give it, and the state
      is that of the wanted device under the given revision, without warnings. */
  method ApplyToShadow(ops: seq<ChangeOp>, base: Option<Shadow>, desired: Desired, revision: nat)
    returns (state: Shadow)
    ensures state == ShadowAfter(base, desired, revision, ops)
    ensures state.deviceId == desired.deviceId && state.revision == revision && state.warnings == []
    ensures forall k :: Look(state, k) == Fate(if base.Some? then Look(base.value, k) else None, k, ops)
  {
    forall k ensures Look(ShadowAfter(base, desired, revision, ops), k) == Fate(if base.Some? then Look(base.value, k) else None, k, ops) {
      ShadowAfterHolds(base, desired, revision, ops, k);
    }
    state := if base.Some? then base.value else EmptyShadow(desired.deviceId);
    state := state.(deviceId := desired.deviceId, revision := revision, warnings := []);
    ghost var start := state;
    for i := 0 to |ops|
      invariant state == Applied(start, ops[..i])
    {
      assert ops[..i + 1][..i] == ops[..i];
      state := ApplyOp(state, ops[i]);
    }
    assert ops[..|ops|] == ops;
    AppliedKeepsTheRest(start, ops);
  }

  // ---- Facts about fates ----

  lemma {:induction false} FateOfBoth(cur: Option<Obj>, k: ObjKey, a: seq<ChangeOp>, b: seq<ChangeOp>)
    ensures Fate(cur, k, a + b) == Fate(Fate(cur, k, a), k, b)
  {
    if b == [] {
      assert a + b == a;
    } else {
      var n := |b| - 1;
      assert (a + b)[..|a| + n] == a + b[..n];
      FateOfBoth(cur, k, a, b[..n]);
    }
  }

  /** The operation gives the object under the key a value. */
  predicate Sets(op: ChangeOp, k: ObjKey) {
    EffectOf(op).Put? && KeyOf(EffectOf(op).obj) == k
  }

  /** The operation removes an object `o` that is under the key. */
  predicate Removes(op: ChangeOp, k: ObjKey, o: Obj) {
    EffectOf(op).Del? && (EffectOf(op).key == k || Carries(EffectOf(op).key, o))
  }

  /** The two operations concern the same object: the one writes what the other removes. */
  predicate Conflict(put: ChangeOp, del: ChangeOp) {
    EffectOf(put).Put? && Removes(del, KeyOf(EffectOf(put).obj), EffectOf(put).obj)
  }

  /** No operation removes what another one writes, and no object is written with two values. */
  ghost predicate Independent(ops: seq<ChangeOp>) {
    && (forall i, j :: 0 <= i < |ops| && 0 <= j < |ops| ==> !Conflict(ops[i], ops[j]))
    && OneValueEach(ops)
  }

  ghost predicate OneValueEach(ops: seq<ChangeOp>) {
    forall i, j, k :: 0 <= i < |ops| && 0 <= j < |ops| && Sets(ops[i], k) && Sets(ops[j], k)
      ==> EffectOf(ops[i]) == EffectOf(ops[j])
  }

  ghost predicate SetIn(ops: seq<ChangeOp>, k: ObjKey) {
    exists i :: 0 <= i < |ops| && Sets(ops[i], k)
  }

  ghost predicate RemovedIn(ops: seq<ChangeOp>, k: ObjKey, o: Obj) {
    exists i :: 0 <= i < |ops| && Removes(ops[i], k, o)
  }

  /** A key that is never written: the object stays or goes. */
  lemma {:induction false} FateWithoutSets(cur: Option<Obj>, k: ObjKey, ops: seq<ChangeOp>)
    requires !SetIn(ops, k)
    ensures cur.None? ==> Fate(cur, k, ops) == None
    ensures cur.Some? ==> Fate(cur, k, ops) == if RemovedIn(ops, k, cur.value) then None else cur
  {
    if ops != [] {
      var n := |ops| - 1;
      var front := ops[..n];
      assert forall i :: 0 <= i < n ==> front[i] == ops[i];
      FateWithoutSets(cur, k, front);
      if cur.Some? && RemovedIn(front, k, cur.value) {
        var i :| 0 <= i < n && Removes(front[i], k, cur.value);
        assert Removes(ops[i], k, cur.value);
      }
    }
  }

  /** A key whose last write is followed only by operations that leave the value alone. */
  lemma FateAfterLastSet(cur: Option<Obj>, k: ObjKey, ops: seq<ChangeOp>, i: nat)
    requires i < |ops| && Sets(ops[i], k)
    requires forall j :: i < j < |ops| ==> !Sets(ops[j], k)
    ensures var o := EffectOf(ops[i]).obj;
            Fate(cur, k, ops) == if RemovedIn(ops[i + 1..], k, o) then None else Some(o)
  {
    var head := ops[..i + 1];
    var tail := ops[i + 1..];
    assert ops == head + tail && head[..i] == ops[..i];
    FateOfBoth(cur, k, head, tail);
    assert forall j :: 0 <= j < |tail| ==> tail[j] == ops[i + 1 + j];
    FateWithoutSets(Fate(cur, k, head), k, tail);
  }

  lemma {:induction false} LastSet(ops: seq<ChangeOp>, k: ObjKey) returns (i: nat)
    requires SetIn(ops, k)
    ensures i < |ops| && Sets(ops[i], k)
    ensures forall j :: i < j < |ops| ==> !Sets(ops[j], k)
  {
    var n := |ops| - 1;
    if Sets(ops[n], k) {
      i := n;
    } else {
      var front := ops[..n];
      var w :| 0 <= w < |ops| && Sets(ops[w], k);
      assert Sets(front[w], k);
      i := LastSet(front, k);
      forall j | i < j < |ops| ensures !Sets(ops[j], k) {
        if j < n { assert front[j] == ops[j]; }
      }
    }
  }

  /** Independent operations: what each object becomes does not depend on their order. */
  lemma FateOfIndependent(cur: Option<Obj>, k: ObjKey, ops: seq<ChangeOp>)
    requires Independent(ops)
    ensures forall i :: 0 <= i < |ops| && Sets(ops[i], k) ==> Fate(cur, k, ops) == Some(EffectOf(ops[i]).obj)
    ensures !SetIn(ops, k) && cur.None? ==> Fate(cur, k, ops) == None
    ensures !SetIn(ops, k) && cur.Some? ==> Fate(cur, k, ops) == if RemovedIn(ops, k, cur.value) then None else cur
  {
    if SetIn(ops, k) {
      var i := LastSet(ops, k);
      FateAfterLastSet(cur, k, ops, i);
      var o := EffectOf(ops[i]).obj;
      var tail := ops[i + 1..];
      forall j | 0 <= j < |tail| ensures !Removes(tail[j], k, o) {
        assert !Conflict(ops[i], ops[i + 1 + j]);
      }
    } else {
      FateWithoutSets(cur, k, ops);
    }
  }

  /** Applying the same operations a second time changes nothing, whatever they are. */
  lemma FateIsStable(cur: Option<Obj>, k: ObjKey, ops: seq<ChangeOp>)
    ensures Fate(Fate(cur, k, ops), k, ops) == Fate(cur, k, ops)
  {
    if SetIn(ops, k) {
      var i := LastSet(ops, k);
      FateAfterLastSet(cur, k, ops, i);
      FateAfterLastSet(Fate(cur, k, ops), k, ops, i);
    } else {
      FateWithoutSets(cur, k, ops);
      FateWithoutSets(Fate(cur, k, ops), k, ops);
    }
  }

  lemma ReapplyingChangesNothing(s: Shadow, ops: seq<ChangeOp>)
    ensures SameContents(Applied(Applied(s, ops), ops), Applied(s, ops))
  {
    var once := Applied(s, ops);
    forall k ensures Look(Applied(once, ops), k) == Look(once, k) {
      AppliedActsOnEachObject(s, ops, k);
      AppliedActsOnEachObject(once, ops, k);
      FateIsStable(Look(s, k), k, ops);
    }
    LookDetermines(Applied(once, ops), once);
  }
}
