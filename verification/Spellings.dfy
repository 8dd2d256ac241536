/** Recorded states that keep objects under other spellings of their names. A change set speaks of normal names
    only, so an entry under another spelling stays, and may overrule what has been recorded for the object. */
module Spellings {
  import opened Wrappers
  import opened ConfigModel
  import opened Normalize
  import opened Objects
  import opened Diff
  import opened DiffContents
  import opened Convergence
  import opened Drift
  import Clashes

  function NormalOf(o: Obj): Obj {
    match o
    case VlanObj(v) => VlanObj(NormalVlan(v))
    case InterfaceObj(i) => InterfaceObj(NormalInterface(i))
    case AclObj(a) => AclObj(NormalAcl(a))
    case BindingObj(b) => BindingObj(NormalBinding(b))
    case ProcessObj(p) => ProcessObj(NormalProcess(p))
    case NeighborObj(n) => NeighborObj(NormalNeighbor(n))
  }

  /** The order in which the entries of one kind are taken up. */
  predicate KeyLe(a: ObjKey, b: ObjKey) {
    match (a, b)
    case (VlanKey(x), VlanKey(y)) => x <= y
    case (InterfaceKey(x), InterfaceKey(y)) => Ordering.StringLe(x, y)
    case (AclKey(x), AclKey(y)) => x <= y
    case (BindingKey(x), BindingKey(y)) => Ordering.StringLe(x, y)
    case (ProcessKey(x), ProcessKey(y)) => Ordering.StringLe(x, y)
    case (NeighborKey(x), NeighborKey(y)) => Ordering.StringLe(x, y)
    case (_, _) => false
  }

  /** The entry under `y` is about the object whose normal key is `k`. */
  predicate Spells(s: Shadow, y: ObjKey, k: ObjKey) {
    Look(s, y).Some? && KeyOf(NormalOf(Look(s, y).value)) == k
  }

  ghost predicate Last(s: Shadow, y: ObjKey, k: ObjKey) {
    Spells(s, y, k) && forall z :: Spells(s, z, k) ==> KeyLe(z, y)
  }

  // ---- The normal form holds the last spelling ----

  /** The last entry, in key order, whose normal key is `k`. */
  ghost predicate IsLastEntry<K(!new), V>(le: (K, K) -> bool, m: map<K, V>, norm: V -> V, key: V -> K, k: K, src: K) {
    src in m && key(norm(m[src])) == k && forall other :: other in m && key(norm(m[other])) == k ==> le(other, src)
  }

  lemma LastEntry<K(!new), V>(le: (K, K) -> bool, m: map<K, V>, norm: V -> V, key: V -> K, k: K) returns (src: K)
    requires Ordering.TotalOrder(le) && k in Rebuild(le, m, norm, key)
    ensures IsLastEntry(le, m, norm, key, k, src) && norm(m[src]) == Rebuild(le, m, norm, key)[k]
  {
    RebuildHolds(le, m, norm, key);
    var v := Rebuild(le, m, norm, key)[k];
    assert ComesFrom(le, m, norm, key, k, v);
    src :| && src in m && norm(m[src]) == v && key(v) == k
           && forall other :: other in m && key(norm(m[other])) == k ==> le(other, src);
  }

  lemma LastVlan(m: map<u16, VlanConfig>, k: u16) returns (src: u16)
    requires k in NormalVlans(m)
    ensures IsLastEntry(U16Le, m, NormalVlan, VlanKeyOf, k, src) && NormalVlan(m[src]) == NormalVlans(m)[k]
  {
    U16sAreOrdered();
    src := LastEntry(U16Le, m, NormalVlan, VlanKeyOf, k);
  }

  lemma VlanIsThere(m: map<u16, VlanConfig>, src: u16)
    requires src in m
    ensures VlanKeyOf(NormalVlan(m[src])) in NormalVlans(m)
  {
    U16sAreOrdered();
    RebuildHolds(U16Le, m, NormalVlan, VlanKeyOf);
  }

  lemma LastInterface(m: map<string, InterfaceConfig>, k: string) returns (src: string)
    requires k in NormalInterfaces(m)
    ensures IsLastEntry(Ordering.StringLe, m, NormalInterface, InterfaceKeyOf, k, src) && NormalInterface(m[src]) == NormalInterfaces(m)[k]
  {
    Ordering.StringLeTotal();
    src := LastEntry(Ordering.StringLe, m, NormalInterface, InterfaceKeyOf, k);
  }

  lemma InterfaceIsThere(m: map<string, InterfaceConfig>, src: string)
    requires src in m
    ensures InterfaceKeyOf(NormalInterface(m[src])) in NormalInterfaces(m)
  {
    Ordering.StringLeTotal();
    RebuildHolds(Ordering.StringLe, m, NormalInterface, InterfaceKeyOf);
  }

  lemma LastAcl(m: map<u16, AclConfig>, k: u16) returns (src: u16)
    requires k in NormalAcls(m)
    ensures IsLastEntry(U16Le, m, NormalAcl, AclKeyOf, k, src) && NormalAcl(m[src]) == NormalAcls(m)[k]
  {
    U16sAreOrdered();
    src := LastEntry(U16Le, m, NormalAcl, AclKeyOf, k);
  }

  lemma AclIsThere(m: map<u16, AclConfig>, src: u16)
    requires src in m
    ensures AclKeyOf(NormalAcl(m[src])) in NormalAcls(m)
  {
    U16sAreOrdered();
    RebuildHolds(U16Le, m, NormalAcl, AclKeyOf);
  }

  lemma LastBinding(m: map<string, AclBinding>, k: string) returns (src: string)
    requires k in NormalBindings(m)
    ensures IsLastEntry(Ordering.StringLe, m, NormalBinding, BindingKeyOf, k, src) && NormalBinding(m[src]) == NormalBindings(m)[k]
  {
    Ordering.StringLeTotal();
    src := LastEntry(Ordering.StringLe, m, NormalBinding, BindingKeyOf, k);
  }

  lemma BindingIsThere(m: map<string, AclBinding>, src: string)
    requires src in m
    ensures BindingKeyOf(NormalBinding(m[src])) in NormalBindings(m)
  {
    Ordering.StringLeTotal();
    RebuildHolds(Ordering.StringLe, m, NormalBinding, BindingKeyOf);
  }

  lemma LastProcess(m: map<string, BgpProcess>, k: string) returns (src: string)
    requires k in NormalProcesses(m)
    ensures IsLastEntry(Ordering.StringLe, m, NormalProcess, ProcessKeyOf, k, src) && NormalProcess(m[src]) == NormalProcesses(m)[k]
  {
    Ordering.StringLeTotal();
    src := LastEntry(Ordering.StringLe, m, NormalProcess, ProcessKeyOf, k);
  }

  lemma ProcessIsThere(m: map<string, BgpProcess>, src: string)
    requires src in m
    ensures ProcessKeyOf(NormalProcess(m[src])) in NormalProcesses(m)
  {
    Ordering.StringLeTotal();
    RebuildHolds(Ordering.StringLe, m, NormalProcess, ProcessKeyOf);
  }

  lemma LastNeighbor(m: map<string, BgpNeighbor>, k: string) returns (src: string)
    requires k in NormalNeighbors(m)
    ensures IsLastEntry(Ordering.StringLe, m, NormalNeighbor, NeighborKeyOf, k, src) && NormalNeighbor(m[src]) == NormalNeighbors(m)[k]
  {
    Ordering.StringLeTotal();
    src := LastEntry(Ordering.StringLe, m, NormalNeighbor, NeighborKeyOf, k);
  }

  lemma NeighborIsThere(m: map<string, BgpNeighbor>, src: string)
    requires src in m
    ensures NeighborKeyOf(NormalNeighbor(m[src])) in NormalNeighbors(m)
  {
    Ordering.StringLeTotal();
    RebuildHolds(Ordering.StringLe, m, NormalNeighbor, NeighborKeyOf);
  }

  lemma VlanIsLast(s: Shadow, id: u16, src: u16)
    requires IsLastEntry(U16Le, s.vlans, NormalVlan, VlanKeyOf, id, src)
    ensures Last(s, VlanKey(src), VlanKey(id))
  {
  }

  lemma InterfaceSpelling(s: Shadow, z: ObjKey, n: string)
    ensures Spells(s, z, InterfaceKey(n))
       <==> z.InterfaceKey? && z.name in s.interfaces && InterfaceKeyOf(NormalInterface(s.interfaces[z.name])) == n
  {
  }

  lemma InterfaceIsLast(s: Shadow, n: string, src: string)
    requires IsLastEntry(Ordering.StringLe, s.interfaces, NormalInterface, InterfaceKeyOf, n, src)
    ensures Last(s, InterfaceKey(src), InterfaceKey(n))
  {
    forall z | Spells(s, z, InterfaceKey(n)) ensures KeyLe(z, InterfaceKey(src)) {
      InterfaceSpelling(s, z, n);
    }
  }

  lemma AclIsLast(s: Shadow, id: u16, src: u16)
    requires IsLastEntry(U16Le, s.acls, NormalAcl, AclKeyOf, id, src)
    ensures Last(s, AclKey(src), AclKey(id))
  {
  }

  lemma BindingSpelling(s: Shadow, z: ObjKey, b: string)
    ensures Spells(s, z, BindingKey(b)) <==> z.BindingKey? && z.binding in s.bindings && BindingKeyOf(NormalBinding(s.bindings[z.binding])) == b
  {
  }

  lemma BindingIsLast(s: Shadow, b: string, src: string)
    requires IsLastEntry(Ordering.StringLe, s.bindings, NormalBinding, BindingKeyOf, b, src)
    ensures Last(s, BindingKey(src), BindingKey(b))
  {
    forall z | Spells(s, z, BindingKey(b)) ensures KeyLe(z, BindingKey(src)) {
      BindingSpelling(s, z, b);
    }
  }

  lemma ProcessSpelling(s: Shadow, z: ObjKey, v: string)
    ensures Spells(s, z, ProcessKey(v)) <==> z.ProcessKey? && z.vrf in s.processes && ProcessKeyOf(NormalProcess(s.processes[z.vrf])) == v
  {
  }

  lemma ProcessIsLast(s: Shadow, v: string, src: string)
    requires IsLastEntry(Ordering.StringLe, s.processes, NormalProcess, ProcessKeyOf, v, src)
    ensures Last(s, ProcessKey(src), ProcessKey(v))
  {
    forall z | Spells(s, z, ProcessKey(v)) ensures KeyLe(z, ProcessKey(src)) {
      ProcessSpelling(s, z, v);
    }
  }

  lemma NeighborSpelling(s: Shadow, z: ObjKey, n: string)
    ensures Spells(s, z, NeighborKey(n))
       <==> z.NeighborKey? && z.neighbor in s.neighbors && NeighborKeyOf(NormalNeighbor(s.neighbors[z.neighbor])) == n
  {
  }

  lemma NeighborIsLast(s: Shadow, n: string, src: string)
    requires IsLastEntry(Ordering.StringLe, s.neighbors, NormalNeighbor, NeighborKeyOf, n, src)
    ensures Last(s, NeighborKey(src), NeighborKey(n))
  {
    forall z | Spells(s, z, NeighborKey(n)) ensures KeyLe(z, NeighborKey(src)) {
      NeighborSpelling(s, z, n);
    }
  }

  lemma LastVlanKey(s: Shadow, id: u16) returns (y: ObjKey)
    requires id in NormalVlans(s.vlans)
    ensures Last(s, y, VlanKey(id)) && NormalOf(Look(s, y).value) == VlanObj(NormalVlans(s.vlans)[id])
  {
    var src := LastVlan(s.vlans, id);
    VlanIsLast(s, id, src);
    y := VlanKey(src);
  }

  lemma LastInterfaceKey(s: Shadow, n: string) returns (y: ObjKey)
    requires n in NormalInterfaces(s.interfaces)
    ensures Last(s, y, InterfaceKey(n)) && NormalOf(Look(s, y).value) == InterfaceObj(NormalInterfaces(s.interfaces)[n])
  {
    var src := LastInterface(s.interfaces, n);
    InterfaceIsLast(s, n, src);
    y := InterfaceKey(src);
  }

  lemma LastAclKey(s: Shadow, id: u16) returns (y: ObjKey)
    requires id in NormalAcls(s.acls)
    ensures Last(s, y, AclKey(id)) && NormalOf(Look(s, y).value) == AclObj(NormalAcls(s.acls)[id])
  {
    var src := LastAcl(s.acls, id);
    AclIsLast(s, id, src);
    y := AclKey(src);
  }

  lemma LastBindingKey(s: Shadow, b: string) returns (y: ObjKey)
    requires b in NormalBindings(s.bindings)
    ensures Last(s, y, BindingKey(b)) && NormalOf(Look(s, y).value) == BindingObj(NormalBindings(s.bindings)[b])
  {
    var src := LastBinding(s.bindings, b);
    BindingIsLast(s, b, src);
    y := BindingKey(src);
  }

  lemma LastProcessKey(s: Shadow, v: string) returns (y: ObjKey)
    requires v in NormalProcesses(s.processes)
    ensures Last(s, y, ProcessKey(v)) && NormalOf(Look(s, y).value) == ProcessObj(NormalProcesses(s.processes)[v])
  {
    var src := LastProcess(s.processes, v);
    ProcessIsLast(s, v, src);
    y := ProcessKey(src);
  }

  lemma LastNeighborKey(s: Shadow, n: string) returns (y: ObjKey)
    requires n in NormalNeighbors(s.neighbors)
    ensures Last(s, y, NeighborKey(n)) && NormalOf(Look(s, y).value) == NeighborObj(NormalNeighbors(s.neighbors)[n])
  {
    var src := LastNeighbor(s.neighbors, n);
    NeighborIsLast(s, n, src);
    y := NeighborKey(src);
  }

  lemma LastSpelling(s: Shadow, k: ObjKey) returns (y: ObjKey)
    requires Look(NormalShadow(s), k).Some?
    ensures Last(s, y, k) && Look(NormalShadow(s), k) == Some(NormalOf(Look(s, y).value))
  {
    match k {
      case VlanKey(id) => y := LastVlanKey(s, id);
      case InterfaceKey(n) => y := LastInterfaceKey(s, n);
      case AclKey(id) => y := LastAclKey(s, id);
      case BindingKey(b) => y := LastBindingKey(s, b);
      case ProcessKey(v) => y := LastProcessKey(s, v);
      case NeighborKey(n) => y := LastNeighborKey(s, n);
    }
  }

  lemma SpelledIsThere(s: Shadow, y: ObjKey, k: ObjKey)
    requires Spells(s, y, k)
    ensures Look(NormalShadow(s), k).Some?
  {
    match k {
      case VlanKey(_) => VlanIsThere(s.vlans, y.vlanId);
      case InterfaceKey(_) => InterfaceIsThere(s.interfaces, y.name);
      case AclKey(_) => AclIsThere(s.acls, y.aclId);
      case BindingKey(_) => BindingIsThere(s.bindings, y.binding);
      case ProcessKey(_) => ProcessIsThere(s.processes, y.vrf);
      case NeighborKey(_) => NeighborIsThere(s.neighbors, y.neighbor);
    }
  }

  lemma LastIsUnique(s: Shadow, y: ObjKey, z: ObjKey, k: ObjKey)
    requires Last(s, y, k) && Last(s, z, k)
    ensures y == z
  {
    Ordering.StringLeTotal();
    assert KeyLe(y, z) && KeyLe(z, y);
  }

  lemma FormOfLast(s: Shadow, y: ObjKey, k: ObjKey)
    requires Last(s, y, k)
    ensures Look(NormalShadow(s), k) == Some(NormalOf(Look(s, y).value))
  {
    SpelledIsThere(s, y, k);
    var z := LastSpelling(s, k);
    LastIsUnique(s, y, z, k);
  }

  // ---- What a change set leaves of the spellings ----

  /** The operations leave the entry as it is. */
  ghost predicate Stays(s: Shadow, ops: seq<ChangeOp>, y: ObjKey, k: ObjKey) {
    Spells(s, y, k) && !SetIn(ops, y) && !RemovedIn(ops, y, Look(s, y).value)
  }

  ghost predicate LastToStay(s: Shadow, ops: seq<ChangeOp>, y: ObjKey, k: ObjKey) {
    Stays(s, ops, y, k) && forall z :: Stays(s, ops, z, k) ==> KeyLe(z, y)
  }

  ghost predicate WritesNormal(ops: seq<ChangeOp>) {
    forall i :: 0 <= i < |ops| && EffectOf(ops[i]).Put? ==> NormalObj(EffectOf(ops[i]).obj)
  }

  lemma NormalIsItself(o: Obj)
    ensures NormalObj(o) <==> NormalOf(o) == o
  {
  }

  /** A written key holds what was written, whatever was there. */
  lemma WrittenFate(cur: Option<Obj>, other: Option<Obj>, k: ObjKey, ops: seq<ChangeOp>)
    requires SetIn(ops, k) && WritesNormal(ops)
    ensures Fate(cur, k, ops) == Fate(other, k, ops)
    ensures Fate(cur, k, ops).Some? ==> KeyOf(Fate(cur, k, ops).value) == k && NormalOf(Fate(cur, k, ops).value) == Fate(cur, k, ops).value
  {
    var i := LastSet(ops, k);
    FateAfterLastSet(cur, k, ops, i);
    FateAfterLastSet(other, k, ops, i);
    NormalIsItself(EffectOf(ops[i]).obj);
  }

  /** The entries about an object afterwards: those that stay, and the one that was written. */
  lemma SpellingsAfter(s: Shadow, ops: seq<ChangeOp>, y: ObjKey, k: ObjKey)
    requires WritesNormal(ops)
    ensures var after := Applied(s, ops);
            && (Spells(after, y, k) <==> Stays(s, ops, y, k) || (y == k && SetIn(ops, k) && Look(after, k).Some?))
            && (Stays(s, ops, y, k) ==> Look(after, y) == Look(s, y))
  {
    AppliedActsOnEachObject(s, ops, y);
    if SetIn(ops, y) {
      WrittenFate(Look(s, y), None, y, ops);
    } else {
      FateWithoutSets(Look(s, y), y, ops);
    }
  }

  /** An entry that stays overrules what the object is to be: it is another object, and where the object has
      been written it comes after it. */
  ghost predicate Overrules(s: Shadow, ops: seq<ChangeOp>, y: ObjKey, k: ObjKey, device: Option<Obj>) {
    && LastToStay(s, ops, y, k) && device != Some(NormalOf(Look(s, y).value))
    && (SetIn(ops, k) && device.Some? ==> KeyLe(k, y))
  }

  /** The operations never write or name a key under which the state keeps another spelling of `k`. */
  ghost predicate Clear(s: Shadow, ops: seq<ChangeOp>, k: ObjKey) {
    forall y :: Spells(s, y, k) && (SetIn(ops, y) || Has(ops, Del(y))) ==> y == k
  }

  lemma WrittenIsLast(s: Shadow, ops: seq<ChangeOp>, k: ObjKey)
    requires Audited(k) && WritesNormal(ops) && SetIn(ops, k) && Fate(Look(s, k), k, ops).Some?
    requires forall y :: Stays(s, ops, y, k) ==> KeyLe(y, k)
    ensures Look(NormalShadow(Applied(s, ops)), k) == Fate(Look(s, k), k, ops)
  {
    var after := Applied(s, ops);
    AppliedActsOnEachObject(s, ops, k);
    WrittenFate(Look(s, k), None, k, ops);
    forall z | Spells(after, z, k) ensures KeyLe(z, k) {
      SpellingsAfter(s, ops, z, k);
      Ordering.StringLeTotal();
    }
    SpellingsAfter(s, ops, k, k);
    FormOfLast(after, k, k);
  }

  lemma StayingIsLast(s: Shadow, ops: seq<ChangeOp>, y: ObjKey, k: ObjKey)
    requires Audited(k) && WritesNormal(ops) && LastToStay(s, ops, y, k)
    requires SetIn(ops, k) && Fate(Look(s, k), k, ops).Some? ==> KeyLe(k, y)
    ensures Look(NormalShadow(Applied(s, ops)), k) == Some(NormalOf(Look(s, y).value))
  {
    var after := Applied(s, ops);
    AppliedActsOnEachObject(s, ops, k);
    SpellingsAfter(s, ops, y, k);
    forall z | Spells(after, z, k) ensures KeyLe(z, y) {
      SpellingsAfter(s, ops, z, k);
    }
    FormOfLast(after, y, k);
  }

  lemma NothingStays(s: Shadow, ops: seq<ChangeOp>, k: ObjKey)
    requires Audited(k) && WritesNormal(ops) && forall y :: !Stays(s, ops, y, k)
    requires !SetIn(ops, k) || Fate(Look(s, k), k, ops).None?
    ensures Look(NormalShadow(Applied(s, ops)), k) == None
  {
    var after := Applied(s, ops);
    AppliedActsOnEachObject(s, ops, k);
    if Look(NormalShadow(after), k).Some? {
      var y := LastSpelling(after, k);
      SpellingsAfter(s, ops, y, k);
      assert false;
    }
  }

  /** The object has been written and is still there. */
  ghost predicate Written(s: Shadow, ops: seq<ChangeOp>, k: ObjKey) {
    SetIn(ops, k) && Fate(Look(s, k), k, ops).Some?
  }

  lemma SomeEntryIsLast(s: Shadow, ops: seq<ChangeOp>, y: ObjKey, k: ObjKey) returns (z: ObjKey)
    requires Audited(k) && WritesNormal(ops) && Stays(s, ops, y, k) && (Written(s, ops, k) ==> KeyLe(k, y))
    ensures LastToStay(s, ops, z, k) && (Written(s, ops, k) ==> KeyLe(k, z))
  {
    var after := Applied(s, ops);
    AppliedActsOnEachObject(s, ops, k);
    SpellingsAfter(s, ops, y, k);
    SpelledIsThere(after, y, k);
    z := LastSpelling(after, k);
    SpellingsAfter(s, ops, z, k);
    SpellingsAfter(s, ops, k, k);
    if z == k && Written(s, ops, k) {
      KeyLeIsAntisymmetric(y, k);
    }
    forall w | Stays(s, ops, w, k) ensures KeyLe(w, z) {
      SpellingsAfter(s, ops, w, k);
    }
  }

  lemma KeyLeIsAntisymmetric(a: ObjKey, b: ObjKey)
    requires KeyLe(a, b) && KeyLe(b, a)
    ensures a == b
  {
    Ordering.StringLeTotal();
  }

  lemma KeyLeIsTotal(s: Shadow, y: ObjKey, k: ObjKey)
    requires Spells(s, y, k)
    ensures KeyLe(y, k) || KeyLe(k, y)
  {
    Ordering.StringLeTotal();
  }

  lemma CarriedAlike(d: ObjKey, o: Obj)
    requires !o.NeighborObj?
    ensures Carries(d, NormalOf(o)) <==> Carries(d, o)
  {
  }

  lemma RemovedAlike(op: ChangeOp, y: ObjKey, x: Obj, k: ObjKey)
    requires Removes(op, y, x) && !x.NeighborObj? && (EffectOf(op).key == y ==> y == k)
    ensures Removes(op, k, NormalOf(x))
  {
    CarriedAlike(EffectOf(op).key, x);
  }

  /** What the device keeps, unwritten, the record keeps too. */
  lemma UnwrittenStays(s: Shadow, ops: seq<ChangeOp>, y: ObjKey, k: ObjKey)
    requires Audited(k) && Clear(s, ops, k) && !SetIn(ops, k)
    requires Spells(s, y, k) && Fate(Some(NormalOf(Look(s, y).value)), k, ops).Some?
    ensures Stays(s, ops, y, k)
  {
    var x := Look(s, y).value;
    FateWithoutSets(Some(NormalOf(x)), k, ops);
    forall i | 0 <= i < |ops| ensures !Removes(ops[i], y, x) {
      if Removes(ops[i], y, x) {
        assert Has(ops, Del(EffectOf(ops[i]).key));
        RemovedAlike(ops[i], y, x, k);
        assert false;
      }
    }
  }

  lemma NothingIsKept(s: Shadow, ops: seq<ChangeOp>, k: ObjKey)
    requires Audited(k) && WritesNormal(ops) && Clear(s, ops, k) && !Written(s, ops, k) && forall y :: !Stays(s, ops, y, k)
    ensures Fate(Look(NormalShadow(s), k), k, ops) == None
  {
    var cur := Look(NormalShadow(s), k);
    if SetIn(ops, k) {
      WrittenFate(Look(s, k), cur, k, ops);
    } else {
      FateWithoutSets(cur, k, ops);
      if Fate(cur, k, ops).Some? {
        var y := LastSpelling(s, k);
        UnwrittenStays(s, ops, y, k);
        assert false;
      }
    }
  }

  lemma OnlyTheLastOverrules(s: Shadow, ops: seq<ChangeOp>, z: ObjKey, k: ObjKey, device: Option<Obj>)
    requires LastToStay(s, ops, z, k) && (SetIn(ops, k) && device.Some? ==> KeyLe(k, z))
    ensures device != Some(NormalOf(Look(s, z).value)) <==> exists y :: Overrules(s, ops, y, k, device)
  {
    if y :| Overrules(s, ops, y, k, device) {
      KeyLeIsAntisymmetric(y, z);
    }
    if device != Some(NormalOf(Look(s, z).value)) {
      assert Overrules(s, ops, z, k, device);
    }
  }

  /** After a change set has been recorded, the record of an object differs from what the operations make of
      it exactly when an entry under another spelling overrules it. */
  lemma RecordDiffersExactlyWhenOverruled(s: Shadow, ops: seq<ChangeOp>, k: ObjKey)
    requires Audited(k) && WritesNormal(ops) && Clear(s, ops, k)
    ensures var device := Fate(Look(NormalShadow(s), k), k, ops);
            Look(NormalShadow(Applied(s, ops)), k) != device <==> exists y :: Overrules(s, ops, y, k, device)
  {
    var device := Fate(Look(NormalShadow(s), k), k, ops);
    if SetIn(ops, k) {
      WrittenFate(Look(s, k), Look(NormalShadow(s), k), k, ops);
    }
    if y :| Stays(s, ops, y, k) && (Written(s, ops, k) ==> KeyLe(k, y)) {
      var z := SomeEntryIsLast(s, ops, y, k);
      StayingIsLast(s, ops, z, k);
      OnlyTheLastOverrules(s, ops, z, k, device);
    } else if Written(s, ops, k) {
      forall y | Stays(s, ops, y, k) ensures KeyLe(y, k) {
        KeyLeIsTotal(s, y, k);
      }
      WrittenIsLast(s, ops, k);
    } else {
      NothingStays(s, ops, k);
      NothingIsKept(s, ops, k);
    }
  }

  // ---- In terms of the audit ----

  /** Every audited entry is kept under its own key, as everything that records a state does. */
  ghost predicate Keyed(s: Shadow) {
    forall y :: Audited(y) && Look(s, y).Some? ==> KeyOf(Look(s, y).value) == y
  }

  lemma WrittenKeyIsNormal(s: Shadow, o: Obj, y: ObjKey)
    requires Keyed(s) && Audited(y) && NormalObj(o) && KeyOf(o) == y && Look(s, y).Some?
    ensures Spells(s, y, y)
  {
    var x := Look(s, y).value;
    if y.BindingKey? {
      Clashes.BindingKeysDiffer(o.bound.interfaceName, o.bound.direction, x.bound.interfaceName, x.bound.direction);
    }
  }

  /** The request drops interfaces by their normal names. */
  ghost predicate NormalDrops(d: Desired) {
    forall n :: n in d.deleteInterfaces ==> CanonicalName(n) == n
  }

  lemma NormalDesiredHasNormalDrops(desired: Desired)
    ensures NormalDrops(NormalDesired(desired))
  {
    forall n | n in NormalDesired(desired).deleteInterfaces ensures CanonicalName(n) == n {
      var raw :| raw in desired.deleteInterfaces && CanonicalName(raw) == n;
      CanonicalNameIsFixed(raw);
    }
  }

  lemma DroppedKeyIsNormal(d: Desired, s: Shadow, y: ObjKey)
    requires CanonicalDesired(d) && NormalDrops(d) && Keyed(s) && Audited(y) && Dropped(d, y) && Look(s, y).Some?
    ensures Spells(s, y, y)
  {
    if y.BindingKey? {
      WrittenKeyIsNormal(s, BindingObj(d.deleteBindings[y.binding]), y);
    }
  }

  lemma SpellingsAreOfOneKind(s: Shadow, y: ObjKey, k: ObjKey)
    requires Spells(s, y, k)
    ensures Audited(y) <==> Audited(k)
  {
  }

  lemma TouchedKeyIsNormal(d: Desired, c: Shadow, s: Shadow, y: ObjKey)
    requires CanonicalDesired(d) && NormalDrops(d) && Keyed(s) && Audited(y) && Look(s, y).Some?
    requires SetIn(DiffOps(d, c), y) || Has(DiffOps(d, c), Del(y))
    ensures Spells(s, y, y)
  {
    var ops := DiffOps(d, c);
    if Has(ops, Del(y)) {
      DiffRemoves(d, c, y);
      DroppedKeyIsNormal(d, s, y);
    } else {
      DiffWritesNormalObjects(d, c);
      var i :| 0 <= i < |ops| && Sets(ops[i], y);
      WrittenKeyIsNormal(s, EffectOf(ops[i]).obj, y);
    }
  }

  lemma DiffIsClear(d: Desired, c: Shadow, s: Shadow, k: ObjKey)
    requires CanonicalDesired(d) && NormalDrops(d) && Keyed(s) && Audited(k)
    ensures WritesNormal(DiffOps(d, c)) && Clear(s, DiffOps(d, c), k)
  {
    DiffWritesNormalObjects(d, c);
    forall y | Spells(s, y, k) && (SetIn(DiffOps(d, c), y) || Has(DiffOps(d, c), Del(y))) ensures y == k {
      SpellingsAreOfOneKind(s, y, k);
      TouchedKeyIsNormal(d, c, s, y);
    }
  }

  lemma ChangeSetIsClear(desired: Desired, current: Shadow, s: Shadow, k: ObjKey)
    requires Keyed(s) && Audited(k)
    ensures WritesNormal(ChangeSet(desired, current)) && Clear(s, ChangeSet(desired, current), k)
  {
    NormalDesiredIsCanonical(desired);
    NormalDesiredHasNormalDrops(desired);
    DiffIsClear(NormalDesired(desired), NormalShadow(current), s, k);
  }

  /** The device shows of an object what the operations make of it. */
  predicate CarriedOut(current: Shadow, ops: seq<ChangeOp>, now: Shadow, k: ObjKey) {
    Look(NormalShadow(now), k) == Look(Applied(NormalShadow(current), ops), k)
  }

  lemma AuditedObject(s: Shadow, c: Shadow, ops: seq<ChangeOp>, shown: Shadow, k: ObjKey)
    requires Audited(k) && WritesNormal(ops) && Clear(s, ops, k)
    requires Look(c, k) == Look(NormalShadow(s), k) && Look(shown, k) == Look(Applied(c, ops), k)
    ensures Look(NormalShadow(Applied(s, ops)), k) != Look(shown, k) <==> exists y :: Overrules(s, ops, y, k, Look(shown, k))
  {
    AppliedActsOnEachObject(c, ops, k);
    RecordDiffersExactlyWhenOverruled(s, ops, k);
  }

  /** A request is carried out on a device whose record agreed with it, and recorded. The next audit has a
      finding about an object exactly when an entry under another spelling overrules its record. */
  lemma AuditFindsExactlyTheOverruled(desired: Desired, current: Shadow, s: Shadow, now: Shadow, k: ObjKey)
    requires Keyed(s) && Audited(k) && !Drifted(s, current, k) && CarriedOut(current, ChangeSet(desired, current), now, k)
    ensures var ops := ChangeSet(desired, current);
            Drifted(Applied(s, ops), now, k) <==> exists y :: Overrules(s, ops, y, k, Look(NormalShadow(now), k))
  {
    var ops := ChangeSet(desired, current);
    ChangeSetIsClear(desired, current, s, k);
    AuditedObject(s, NormalShadow(current), ops, NormalShadow(now), k);
  }

  lemma FateIsKeyed(cur: Option<Obj>, k: ObjKey, ops: seq<ChangeOp>)
    requires cur.Some? ==> KeyOf(cur.value) == k
    ensures Fate(cur, k, ops).Some? ==> KeyOf(Fate(cur, k, ops).value) == k
  {
    if SetIn(ops, k) {
      var i := LastSet(ops, k);
      FateAfterLastSet(cur, k, ops, i);
    } else {
      FateWithoutSets(cur, k, ops);
    }
  }

  /** Recording a change set keeps every entry under its own key. */
  lemma RecordingKeepsKeyed(s: Shadow, ops: seq<ChangeOp>)
    requires Keyed(s)
    ensures Keyed(Applied(s, ops))
  {
    forall y | Audited(y) && Look(Applied(s, ops), y).Some? ensures KeyOf(Look(Applied(s, ops), y).value) == y {
      AppliedActsOnEachObject(s, ops, y);
      FateIsKeyed(Look(s, y), y, ops);
    }
  }
}
