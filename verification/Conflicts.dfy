/** Which requests give plans that always mean what their change sets mean. */
module Conflicts {
  import opened Wrappers
  import opened Text
  import opened ConfigModel
  import opened Normalize
  import opened Objects
  import opened Diff
  import opened DiffContents
  import opened Convergence
  import opened ChangePlan
  import opened Clashes

  /** A wanted object is neither asked to go nor carried by one that is. Only a binding may be asked to go
      as it is wanted: it is then removed where it already is, and written nowhere. */
  ghost predicate SafeAt(d: Desired, k: ObjKey) {
    Wanted(d, k).Some? ==>
      && (Dropped(d, k) ==> k.BindingKey? && BindingObj(d.deleteBindings[k.binding]) == Wanted(d, k).value)
      && forall via :: Dropped(d, via) ==> !Carries(via, Wanted(d, k).value)
  }

  ghost predicate Safe(d: Desired) {
    forall k :: SafeAt(d, k)
  }

  lemma OneBindingEach(a: AclBinding, b: AclBinding)
    requires BindingKeyOf(a) == BindingKeyOf(b) && a.aclId == b.aclId
    ensures a == b
  {
    BindingKeysDiffer(a.interfaceName, a.direction, b.interfaceName, b.direction);
  }

  lemma SafeHasNoConflict(d: Desired, c: Shadow)
    requires CanonicalDesired(d) && CanonicalShadow(c) && Safe(d)
    ensures ConflictFree(DiffOps(d, c))
  {
    var ops := DiffOps(d, c);
    forall i, j | 0 <= i < |ops| && 0 <= j < |ops| ensures !Conflict(ops[i], ops[j]) {
      if EffectOf(ops[i]).Put? && EffectOf(ops[j]).Del? {
        var o := EffectOf(ops[i]).obj;
        var k := EffectOf(ops[j]).key;
        assert Has(ops, Put(o)) && Has(ops, Del(k));
        DiffWrites(d, c, o);
        DiffRemoves(d, c, k);
        assert SafeAt(d, KeyOf(o));
        CanonicalAtObject(c, k);
        if k == KeyOf(o) {
          OneBindingEach(o.bound, Look(c, k).value.bound);
          assert false;
        }
      }
    }
  }

  /** Another object with the same key. */
  function Altered(o: Obj): Obj {
    match o
    case VlanObj(v) => VlanObj(v.(name := if v.name.Some? then None else Some("x")))
    case InterfaceObj(i) => InterfaceObj(i.(adminState := if i.adminState.Up? then Down else Up))
    case AclObj(a) => AclObj(a.(kind := if a.kind.BasicIpv4? then AdvancedIpv4 else BasicIpv4))
    case BindingObj(b) => BindingObj(b.(aclId := if b.aclId == 0 then 1 else 0))
    case ProcessObj(p) => ProcessObj(p.(localAs := if p.localAs == 0 then 1 else 0))
    case NeighborObj(n) => NeighborObj(n.(remoteAs := if n.remoteAs == 0 then 1 else 0))
  }

  lemma AlteredIsAnother(o: Obj)
    ensures Altered(o) != o && KeyOf(Altered(o)) == KeyOf(o) && (NormalObj(o) ==> NormalObj(Altered(o)))
  {
    TrimmedStays("x");
  }

  /** The object that makes the request remove what it wants. */
  function Trap(d: Desired, k: ObjKey, via: ObjKey): Obj
    requires Wanted(d, k).Some? && Dropped(d, via)
  {
    if via == k && !k.BindingKey? then Altered(Wanted(d, k).value) else Victim(d, via, Wanted(d, k).value)
  }

  lemma TrapHolds(d: Desired, k: ObjKey, via: ObjKey)
    requires CanonicalDesired(d) && Wanted(d, k).Some? && Dropped(d, via)
    requires via != k ==> Carries(via, Wanted(d, k).value)
    requires via == k && k.BindingKey? ==> BindingObj(d.deleteBindings[k.binding]) != Wanted(d, k).value
    ensures var x := Trap(d, k, via);
            && CanonicalShadow(Only(x)) && Leaves(d, via, Look(Only(x), via)) && Look(Only(x), k) != Wanted(d, k)
  {
    WantedIsKeyed(d, k);
    WantedIsNormal(d, k);
    VictimIsKeyed(d, k, via);
    AlteredIsAnother(Wanted(d, k).value);
    OnlyHolds(Trap(d, k, via));
  }

  lemma WriteMeetsRemoval(d: Desired, c: Shadow, k: ObjKey, via: ObjKey)
    requires CanonicalDesired(d) && Wanted(d, k).Some? && Look(c, k) != Wanted(d, k) && Leaves(d, via, Look(c, via))
    requires via != k ==> Carries(via, Wanted(d, k).value)
    ensures !ConflictFree(DiffOps(d, c))
  {
    var o := Wanted(d, k).value;
    WantedIsKeyed(d, k);
    DiffWrites(d, c, o);
    DiffRemoves(d, c, via);
    var ops := DiffOps(d, c);
    var i :| 0 <= i < |ops| && EffectOf(ops[i]) == Put(o);
    var j :| 0 <= j < |ops| && EffectOf(ops[j]) == Del(via);
    assert Conflict(ops[i], ops[j]);
  }

  lemma UnsafeCanConflict(d: Desired, k: ObjKey) returns (c: Shadow)
    requires CanonicalDesired(d) && !SafeAt(d, k)
    ensures CanonicalShadow(c) && !ConflictFree(DiffOps(d, c))
  {
    var via := k;
    if !Dropped(d, k) || (k.BindingKey? && BindingObj(d.deleteBindings[k.binding]) == Wanted(d, k).value) {
      via :| Dropped(d, via) && Carries(via, Wanted(d, k).value);
    }
    TrapHolds(d, k, via);
    c := Only(Trap(d, k, via));
    WriteMeetsRemoval(d, c, k, via);
  }

  /** Running the plan from `base` gives what running the change set in its own order gives. */
  ghost predicate PlanAgrees(desired: Desired, current: Shadow, base: Shadow) {
    var ops := ChangeSet(desired, current);
    SameContents(Applied(base, Staged(ops)), Applied(base, ops))
  }

  lemma SafePlanAgrees(desired: Desired, current: Shadow, base: Shadow)
    requires Safe(NormalDesired(desired))
    ensures PlanAgrees(desired, current, base)
  {
    NormalDesiredIsCanonical(desired);
    NormalShadowIsCanonical(current);
    SafeHasNoConflict(NormalDesired(desired), NormalShadow(current));
    PlanMeansChangeSetExactlyWhenConflictFree(desired, current, base);
  }

  lemma UnsafePlanDiffers(desired: Desired) returns (current: Shadow)
    requires !Safe(NormalDesired(desired))
    ensures CanonicalShadow(current) && forall base :: !PlanAgrees(desired, current, base)
  {
    var k :| !SafeAt(NormalDesired(desired), k);
    NormalDesiredIsCanonical(desired);
    current := UnsafeCanConflict(NormalDesired(desired), k);
    NormalShadowIsCanonical(current);
    forall base ensures !PlanAgrees(desired, current, base) {
      PlanMeansChangeSetExactlyWhenConflictFree(desired, current, base);
    }
  }

  /** The plan of a request means the same as its change set, whatever the device reports, exactly when the
      request is safe. Otherwise the device may report a state from which they differ for every base. */
  lemma PlanAlwaysAgreesExactlyWhenSafe(desired: Desired)
    ensures Safe(NormalDesired(desired)) <==> forall current, base :: PlanAgrees(desired, current, base)
  {
    if Safe(NormalDesired(desired)) {
      forall current, base ensures PlanAgrees(desired, current, base) {
        SafePlanAgrees(desired, current, base);
      }
    } else {
      var current := UnsafePlanDiffers(desired);
      assert !PlanAgrees(desired, current, current);
    }
  }
}
