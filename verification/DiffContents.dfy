/** What the difference says, and when applying it is enough. */
module DiffContents {
  import opened Wrappers
  import opened Ordering
  import opened ConfigModel
  import opened Normalize
  import opened Objects
  import opened Diff

  predicate Visited(d: Desired, v: Visit) {
    match v
    case Want(k) => Wanted(d, k).Some?
    case Drop(k) => Dropped(d, k)
  }

  /** The operation comes from one look of the comparison. */
  ghost predicate Emitted(d: Desired, c: Shadow, op: ChangeOp) {
    exists v :: Visited(d, v) && Change(d, c, v) == Some(op)
  }

  /** The place of an operation in the comparison: one number for each pass. */
  function RankOf(e: Effect): nat {
    match e
    case Put(o) =>
      (match o
       case VlanObj(_) => 0
       case InterfaceObj(_) => 1
       case AclObj(_) => 4
       case BindingObj(_) => 5
       case ProcessObj(_) => 8
       case NeighborObj(_) => 9)
    case Del(k) =>
      (match k
       case InterfaceKey(_) => 2
       case VlanKey(_) => 3
       case BindingKey(_) => 6
       case AclKey(_) => 7
       case NeighborKey(_) => 10
       case ProcessKey(_) => 11)
  }

  function Rank(op: ChangeOp): nat { RankOf(EffectOf(op)) }

  ghost predicate Ranked(ops: seq<ChangeOp>, lo: nat, hi: nat) {
    && (forall i :: 0 <= i < |ops| ==> lo <= Rank(ops[i]) <= hi)
    && (forall i, j :: 0 <= i < j < |ops| ==> Rank(ops[i]) <= Rank(ops[j]))
  }

  lemma RankedJoin(a: seq<ChangeOp>, b: seq<ChangeOp>, lo: nat, mid: nat, mid': nat, hi: nat)
    requires Ranked(a, lo, mid) && Ranked(b, mid', hi) && lo <= mid <= mid' <= hi
    ensures Ranked(a + b, lo, hi)
  {
  }

  lemma RankedFour(a: seq<ChangeOp>, b: seq<ChangeOp>, e: seq<ChangeOp>, f: seq<ChangeOp>, lo: nat)
    requires Ranked(a, lo, lo) && Ranked(b, lo + 1, lo + 1) && Ranked(e, lo + 2, lo + 2) && Ranked(f, lo + 3, lo + 3)
    ensures Ranked(a + b + e + f, lo, lo + 3)
  {
    RankedJoin(a, b, lo, lo, lo + 1, lo + 1);
    RankedJoin(a + b, e, lo, lo + 1, lo + 2, lo + 2);
    RankedJoin(a + b + e, f, lo, lo + 2, lo + 3, lo + 3);
  }

  lemma {:induction false} PassHolds<K(!new)>(d: Desired, c: Shadow, keys: seq<K>, visit: K -> Visit)
    ensures forall op :: op in Pass(d, c, keys, visit) ==>
              exists k :: k in keys && Change(d, c, visit(k)) == Some(op)
    ensures forall k :: k in keys && Change(d, c, visit(k)).Some? ==>
              Change(d, c, visit(k)).value in Pass(d, c, keys, visit)
  {
    if keys != [] {
      var n := |keys| - 1;
      PassHolds(d, c, keys[..n], visit);
      assert keys == keys[..n] + [keys[n]];
      forall op | op in Pass(d, c, keys, visit)
        ensures exists k :: k in keys && Change(d, c, visit(k)) == Some(op)
      {
        if op in Pass(d, c, keys[..n], visit) {
          var k :| k in keys[..n] && Change(d, c, visit(k)) == Some(op);
          assert k in keys;
        } else {
          assert keys[n] in keys;
        }
      }
    }
  }

  /** A wanted object of a canonical state is under its own key. */
  lemma WantedIsKeyed(d: Desired, k: ObjKey)
    requires CanonicalDesired(d) && Wanted(d, k).Some?
    ensures KeyOf(Wanted(d, k).value) == k
  {
  }

  lemma UpsertMeans(before: Option<Obj>, after: Obj)
    ensures EffectOf(UpsertOp(before, after)) == Put(after)
  {
  }

  lemma DroppedBindingIsKeyed(d: Desired, b: string)
    requires Canonical(d.deleteBindings, NormalBinding, BindingKeyOf) && b in d.deleteBindings
    ensures BindingKeyOf(d.deleteBindings[b]) == b
  {
  }

  lemma DroppedNeighborIsKeyed(d: Desired, n: string)
    requires Canonical(d.deleteNeighbors, NormalNeighbor, NeighborKeyOf) && n in d.deleteNeighbors
    ensures NeighborKeyOf(d.deleteNeighbors[n]) == n
  {
  }

  lemma DropMeans(d: Desired, k: ObjKey)
    requires Dropped(d, k)
    requires k.BindingKey? ==> BindingKeyOf(d.deleteBindings[k.binding]) == k.binding
    requires k.NeighborKey? ==> NeighborKeyOf(d.deleteNeighbors[k.neighbor]) == k.neighbor
    ensures EffectOf(DropOp(d, k)) == Del(k)
  {
  }

  lemma ChangeMeans(d: Desired, c: Shadow, v: Visit)
    requires CanonicalDesired(d) && Change(d, c, v).Some?
    ensures v.Want? ==> Wanted(d, v.key).Some? && EffectOf(Change(d, c, v).value) == Put(Wanted(d, v.key).value)
    ensures v.Drop? ==> Leaves(d, v.key, Look(c, v.key)) && EffectOf(Change(d, c, v).value) == Del(v.key)
  {
    if v.Want? {
      UpsertMeans(Look(c, v.key), Wanted(d, v.key).value);
    } else {
      if v.key.BindingKey? { DroppedBindingIsKeyed(d, v.key.binding); }
      if v.key.NeighborKey? { DroppedNeighborIsKeyed(d, v.key.neighbor); }
      DropMeans(d, v.key);
    }
  }

  function VisitRank(v: Visit): nat {
    match v
    case Want(k) =>
      (match k
       case VlanKey(_) => 0
       case InterfaceKey(_) => 1
       case AclKey(_) => 4
       case BindingKey(_) => 5
       case ProcessKey(_) => 8
       case NeighborKey(_) => 9)
    case Drop(k) => RankOf(Del(k))
  }

  lemma ChangeIsRanked(d: Desired, c: Shadow, v: Visit)
    requires Change(d, c, v).Some?
    ensures Rank(Change(d, c, v).value) == VisitRank(v)
  {
    if v.Want? {
      UpsertMeans(Look(c, v.key), Wanted(d, v.key).value);
    }
  }

  lemma PassIsRanked<K(!new)>(d: Desired, c: Shadow, keys: seq<K>, visit: K -> Visit, r: nat)
    requires forall k :: VisitRank(visit(k)) == r
    ensures Ranked(Pass(d, c, keys, visit), r, r)
  {
    PassHolds(d, c, keys, visit);
    var ops := Pass(d, c, keys, visit);
    forall i | 0 <= i < |ops| ensures Rank(ops[i]) == r {
      assert ops[i] in ops;
      var k :| k in keys && Change(d, c, visit(k)) == Some(ops[i]);
      ChangeIsRanked(d, c, visit(k));
    }
  }

  lemma WantedBaseIsRanked(d: Desired, c: Shadow)
    ensures Ranked(Pass(d, c, U16s(d.vlans.Keys), WantVlan), 0, 0)
    ensures Ranked(Pass(d, c, Strings(d.interfaces.Keys), WantInterface), 1, 1)
  {
    PassIsRanked(d, c, U16s(d.vlans.Keys), WantVlan, 0);
    PassIsRanked(d, c, Strings(d.interfaces.Keys), WantInterface, 1);
  }

  lemma DroppedBaseIsRanked(d: Desired, c: Shadow)
    ensures Ranked(Pass(d, c, Strings(d.deleteInterfaces), DropInterface), 2, 2)
    ensures Ranked(Pass(d, c, U16s(d.deleteVlans), DropVlan), 3, 3)
  {
    PassIsRanked(d, c, Strings(d.deleteInterfaces), DropInterface, 2);
    PassIsRanked(d, c, U16s(d.deleteVlans), DropVlan, 3);
  }

  lemma BaseIsRanked(d: Desired, c: Shadow)
    ensures Ranked(BaseOps(d, c), 0, 3)
  {
    WantedBaseIsRanked(d, c);
    DroppedBaseIsRanked(d, c);
    RankedFour(Pass(d, c, U16s(d.vlans.Keys), WantVlan), Pass(d, c, Strings(d.interfaces.Keys), WantInterface),
               Pass(d, c, Strings(d.deleteInterfaces), DropInterface), Pass(d, c, U16s(d.deleteVlans), DropVlan), 0);
  }

  lemma WantedAclsAreRanked(d: Desired, c: Shadow)
    ensures Ranked(Pass(d, c, U16s(d.acls.Keys), WantAcl), 4, 4)
    ensures Ranked(Pass(d, c, Strings(d.bindings.Keys), WantBinding), 5, 5)
  {
    PassIsRanked(d, c, U16s(d.acls.Keys), WantAcl, 4);
    PassIsRanked(d, c, Strings(d.bindings.Keys), WantBinding, 5);
  }

  lemma DroppedAclsAreRanked(d: Desired, c: Shadow)
    ensures Ranked(Pass(d, c, Strings(d.deleteBindings.Keys), DropBinding), 6, 6)
    ensures Ranked(Pass(d, c, U16s(d.deleteAcls), DropAcl), 7, 7)
  {
    PassIsRanked(d, c, Strings(d.deleteBindings.Keys), DropBinding, 6);
    PassIsRanked(d, c, U16s(d.deleteAcls), DropAcl, 7);
  }

  lemma AclsAreRanked(d: Desired, c: Shadow)
    ensures Ranked(AclOps(d, c), 4, 7)
  {
    WantedAclsAreRanked(d, c);
    DroppedAclsAreRanked(d, c);
    RankedFour(Pass(d, c, U16s(d.acls.Keys), WantAcl), Pass(d, c, Strings(d.bindings.Keys), WantBinding),
               Pass(d, c, Strings(d.deleteBindings.Keys), DropBinding), Pass(d, c, U16s(d.deleteAcls), DropAcl), 4);
  }

  lemma WantedBgpIsRanked(d: Desired, c: Shadow)
    ensures Ranked(Pass(d, c, Strings(d.processes.Keys), WantProcess), 8, 8)
    ensures Ranked(Pass(d, c, Strings(d.neighbors.Keys), WantNeighbor), 9, 9)
  {
    PassIsRanked(d, c, Strings(d.processes.Keys), WantProcess, 8);
    PassIsRanked(d, c, Strings(d.neighbors.Keys), WantNeighbor, 9);
  }

  lemma DroppedBgpIsRanked(d: Desired, c: Shadow)
    ensures Ranked(Pass(d, c, Strings(d.deleteNeighbors.Keys), DropNeighbor), 10, 10)
    ensures Ranked(Pass(d, c, Strings(d.deleteProcesses), DropProcess), 11, 11)
  {
    PassIsRanked(d, c, Strings(d.deleteNeighbors.Keys), DropNeighbor, 10);
    PassIsRanked(d, c, Strings(d.deleteProcesses), DropProcess, 11);
  }

  lemma BgpIsRanked(d: Desired, c: Shadow)
    ensures Ranked(BgpOps(d, c), 8, 11)
  {
    WantedBgpIsRanked(d, c);
    DroppedBgpIsRanked(d, c);
    RankedFour(Pass(d, c, Strings(d.processes.Keys), WantProcess), Pass(d, c, Strings(d.neighbors.Keys), WantNeighbor),
               Pass(d, c, Strings(d.deleteNeighbors.Keys), DropNeighbor), Pass(d, c, Strings(d.deleteProcesses), DropProcess), 8);
  }

  /** The operations come in the fixed order of the passes. */
  lemma DiffIsRanked(d: Desired, c: Shadow)
    ensures Ranked(DiffOps(d, c), 0, 11)
  {
    BaseIsRanked(d, c);
    AclsAreRanked(d, c);
    BgpIsRanked(d, c);
    RankedJoin(BaseOps(d, c), AclOps(d, c), 0, 3, 4, 7);
    RankedJoin(BaseOps(d, c) + AclOps(d, c), BgpOps(d, c), 0, 7, 8, 11);
  }

  lemma PassEmits<K(!new)>(d: Desired, c: Shadow, keys: seq<K>, visit: K -> Visit, op: ChangeOp)
    requires op in Pass(d, c, keys, visit) && forall k :: k in keys ==> Visited(d, visit(k))
    ensures Emitted(d, c, op)
  {
    PassHolds(d, c, keys, visit);
    var k :| k in keys && Change(d, c, visit(k)) == Some(op);
    assert Visited(d, visit(k));
  }

  lemma WantedBaseIsEmitted(d: Desired, c: Shadow, op: ChangeOp)
    requires op in Pass(d, c, U16s(d.vlans.Keys), WantVlan) || op in Pass(d, c, Strings(d.interfaces.Keys), WantInterface)
    ensures Emitted(d, c, op)
  {
    if op in Pass(d, c, U16s(d.vlans.Keys), WantVlan) { PassEmits(d, c, U16s(d.vlans.Keys), WantVlan, op); }
    else { PassEmits(d, c, Strings(d.interfaces.Keys), WantInterface, op); }
  }

  lemma DroppedBaseIsEmitted(d: Desired, c: Shadow, op: ChangeOp)
    requires op in Pass(d, c, Strings(d.deleteInterfaces), DropInterface) || op in Pass(d, c, U16s(d.deleteVlans), DropVlan)
    ensures Emitted(d, c, op)
  {
    if op in Pass(d, c, Strings(d.deleteInterfaces), DropInterface) { PassEmits(d, c, Strings(d.deleteInterfaces), DropInterface, op); }
    else { PassEmits(d, c, U16s(d.deleteVlans), DropVlan, op); }
  }

  lemma WantedAclsAreEmitted(d: Desired, c: Shadow, op: ChangeOp)
    requires op in Pass(d, c, U16s(d.acls.Keys), WantAcl) || op in Pass(d, c, Strings(d.bindings.Keys), WantBinding)
    ensures Emitted(d, c, op)
  {
    if op in Pass(d, c, U16s(d.acls.Keys), WantAcl) { PassEmits(d, c, U16s(d.acls.Keys), WantAcl, op); }
    else { PassEmits(d, c, Strings(d.bindings.Keys), WantBinding, op); }
  }

  lemma DroppedAclsAreEmitted(d: Desired, c: Shadow, op: ChangeOp)
    requires op in Pass(d, c, Strings(d.deleteBindings.Keys), DropBinding) || op in Pass(d, c, U16s(d.deleteAcls), DropAcl)
    ensures Emitted(d, c, op)
  {
    if op in Pass(d, c, Strings(d.deleteBindings.Keys), DropBinding) { PassEmits(d, c, Strings(d.deleteBindings.Keys), DropBinding, op); }
    else { PassEmits(d, c, U16s(d.deleteAcls), DropAcl, op); }
  }

  lemma WantedBgpIsEmitted(d: Desired, c: Shadow, op: ChangeOp)
    requires op in Pass(d, c, Strings(d.processes.Keys), WantProcess) || op in Pass(d, c, Strings(d.neighbors.Keys), WantNeighbor)
    ensures Emitted(d, c, op)
  {
    if op in Pass(d, c, Strings(d.processes.Keys), WantProcess) { PassEmits(d, c, Strings(d.processes.Keys), WantProcess, op); }
    else { PassEmits(d, c, Strings(d.neighbors.Keys), WantNeighbor, op); }
  }

  lemma DroppedBgpIsEmitted(d: Desired, c: Shadow, op: ChangeOp)
    requires op in Pass(d, c, Strings(d.deleteNeighbors.Keys), DropNeighbor) || op in Pass(d, c, Strings(d.deleteProcesses), DropProcess)
    ensures Emitted(d, c, op)
  {
    if op in Pass(d, c, Strings(d.deleteNeighbors.Keys), DropNeighbor) { PassEmits(d, c, Strings(d.deleteNeighbors.Keys), DropNeighbor, op); }
    else { PassEmits(d, c, Strings(d.deleteProcesses), DropProcess, op); }
  }

  lemma WantIsThere(d: Desired, c: Shadow, k: ObjKey)
    requires Wanted(d, k).Some? && Change(d, c, Want(k)).Some?
    ensures Change(d, c, Want(k)).value in DiffOps(d, c)
  {
    match k
    case VlanKey(x) => assert WantVlan(x) == Want(k); PassHolds(d, c, U16s(d.vlans.Keys), WantVlan);
    case InterfaceKey(x) => assert WantInterface(x) == Want(k); PassHolds(d, c, Strings(d.interfaces.Keys), WantInterface);
    case AclKey(x) => assert WantAcl(x) == Want(k); PassHolds(d, c, U16s(d.acls.Keys), WantAcl);
    case BindingKey(x) => assert WantBinding(x) == Want(k); PassHolds(d, c, Strings(d.bindings.Keys), WantBinding);
    case ProcessKey(x) => assert WantProcess(x) == Want(k); PassHolds(d, c, Strings(d.processes.Keys), WantProcess);
    case NeighborKey(x) => assert WantNeighbor(x) == Want(k); PassHolds(d, c, Strings(d.neighbors.Keys), WantNeighbor);
  }

  lemma DropIsThere(d: Desired, c: Shadow, k: ObjKey)
    requires Dropped(d, k) && Change(d, c, Drop(k)).Some?
    ensures Change(d, c, Drop(k)).value in DiffOps(d, c)
  {
    match k
    case VlanKey(x) => assert DropVlan(x) == Drop(k); PassHolds(d, c, U16s(d.deleteVlans), DropVlan);
    case InterfaceKey(x) => assert DropInterface(x) == Drop(k); PassHolds(d, c, Strings(d.deleteInterfaces), DropInterface);
    case AclKey(x) => assert DropAcl(x) == Drop(k); PassHolds(d, c, U16s(d.deleteAcls), DropAcl);
    case BindingKey(x) => assert DropBinding(x) == Drop(k); PassHolds(d, c, Strings(d.deleteBindings.Keys), DropBinding);
    case ProcessKey(x) => assert DropProcess(x) == Drop(k); PassHolds(d, c, Strings(d.deleteProcesses), DropProcess);
    case NeighborKey(x) => assert DropNeighbor(x) == Drop(k); PassHolds(d, c, Strings(d.deleteNeighbors.Keys), DropNeighbor);
  }

  lemma DiffIsEmitted(d: Desired, c: Shadow, op: ChangeOp)
    requires op in DiffOps(d, c)
    ensures Emitted(d, c, op)
  {
    if op in Pass(d, c, U16s(d.vlans.Keys), WantVlan) || op in Pass(d, c, Strings(d.interfaces.Keys), WantInterface) {
      WantedBaseIsEmitted(d, c, op);
    } else if op in Pass(d, c, Strings(d.deleteInterfaces), DropInterface) || op in Pass(d, c, U16s(d.deleteVlans), DropVlan) {
      DroppedBaseIsEmitted(d, c, op);
    } else if op in Pass(d, c, U16s(d.acls.Keys), WantAcl) || op in Pass(d, c, Strings(d.bindings.Keys), WantBinding) {
      WantedAclsAreEmitted(d, c, op);
    } else if op in Pass(d, c, Strings(d.deleteBindings.Keys), DropBinding) || op in Pass(d, c, U16s(d.deleteAcls), DropAcl) {
      DroppedAclsAreEmitted(d, c, op);
    } else if op in Pass(d, c, Strings(d.processes.Keys), WantProcess) || op in Pass(d, c, Strings(d.neighbors.Keys), WantNeighbor) {
      WantedBgpIsEmitted(d, c, op);
    } else {
      DroppedBgpIsEmitted(d, c, op);
    }
  }

  /** The change set holds exactly the changes of the single looks, nothing is missed or made up. */
  lemma DiffHolds(d: Desired, c: Shadow, op: ChangeOp)
    ensures op in DiffOps(d, c) <==> Emitted(d, c, op)
  {
    if op in DiffOps(d, c) {
      DiffIsEmitted(d, c, op);
    }
    if Emitted(d, c, op) {
      var v :| Visited(d, v) && Change(d, c, v) == Some(op);
      if v.Want? { WantIsThere(d, c, v.key); } else { DropIsThere(d, c, v.key); }
    }
  }

  ghost predicate Has(ops: seq<ChangeOp>, e: Effect) {
    exists i :: 0 <= i < |ops| && EffectOf(ops[i]) == e
  }

  /** An object is written exactly when it is wanted and not already as wanted. */
  lemma DiffWrites(d: Desired, c: Shadow, o: Obj)
    requires CanonicalDesired(d)
    ensures Has(DiffOps(d, c), Put(o)) <==> Wanted(d, KeyOf(o)) == Some(o) && Look(c, KeyOf(o)) != Some(o)
  {
    var ops := DiffOps(d, c);
    if Has(ops, Put(o)) {
      var i :| 0 <= i < |ops| && EffectOf(ops[i]) == Put(o);
      DiffHolds(d, c, ops[i]);
      var v :| Visited(d, v) && Change(d, c, v) == Some(ops[i]);
      ChangeMeans(d, c, v);
      WantedIsKeyed(d, v.key);
    }
    if Wanted(d, KeyOf(o)) == Some(o) && Look(c, KeyOf(o)) != Some(o) {
      ChangeMeans(d, c, Want(KeyOf(o)));
      WantIsThere(d, c, KeyOf(o));
      var i :| 0 <= i < |ops| && ops[i] == Change(d, c, Want(KeyOf(o))).value;
    }
  }

  /** A key is removed exactly when it is asked to go and holds the object meant. */
  lemma DiffRemoves(d: Desired, c: Shadow, k: ObjKey)
    requires CanonicalDesired(d)
    ensures Has(DiffOps(d, c), Del(k)) <==> Leaves(d, k, Look(c, k))
  {
    var ops := DiffOps(d, c);
    if Has(ops, Del(k)) {
      var i :| 0 <= i < |ops| && EffectOf(ops[i]) == Del(k);
      DiffHolds(d, c, ops[i]);
      var v :| Visited(d, v) && Change(d, c, v) == Some(ops[i]);
      ChangeMeans(d, c, v);
    }
    if Leaves(d, k, Look(c, k)) {
      ChangeMeans(d, c, Drop(k));
      DropIsThere(d, c, k);
      var i :| 0 <= i < |ops| && ops[i] == Change(d, c, Drop(k)).value;
    }
  }

  /** The object an operation says was there before, where it says so. */
  function BeforeOf(op: ChangeOp): Option<Obj> {
    match op
    case UpdateVlan(v, _) => Some(VlanObj(v))
    case UpdateInterface(i, _) => if i.Some? then Some(InterfaceObj(i.value)) else None
    case UpdateAcl(a, _) => Some(AclObj(a))
    case UpdateBinding(b, _) => Some(BindingObj(b))
    case UpdateProcess(p, _) => Some(ProcessObj(p))
    case UpdateNeighbor(n, _) => Some(NeighborObj(n))
    case _ => None
  }

  lemma UpsertTellsBefore(before: Option<Obj>, after: Obj)
    requires before.Some? ==> KeyOf(before.value) == KeyOf(after)
    ensures BeforeOf(UpsertOp(before, after)) == before
  {
  }

  /** A write tells truly what was there before: nothing, or exactly that object. */
  lemma WritesTellBefore(d: Desired, c: Shadow, op: ChangeOp)
    requires CanonicalDesired(d) && op in DiffOps(d, c) && EffectOf(op).Put?
    requires Look(c, TargetOf(op)).Some? ==> KeyOf(Look(c, TargetOf(op)).value) == TargetOf(op)
    ensures BeforeOf(op) == Look(c, TargetOf(op))
  {
    DiffHolds(d, c, op);
    var v :| Visited(d, v) && Change(d, c, v) == Some(op);
    ChangeMeans(d, c, v);
    WantedIsKeyed(d, v.key);
    UpsertTellsBefore(Look(c, v.key), Wanted(d, v.key).value);
  }
}
