/** When applying the difference is enough: convergence, and what it leaves alone. */
module Convergence {
  import opened Wrappers
  import opened ConfigModel
  import opened Normalize
  import opened Objects
  import opened Diff
  import opened DiffContents

  /** Nothing is left to do for one key. */
  predicate SettledAt(d: Desired, k: ObjKey, cur: Option<Obj>) {
    (Wanted(d, k).Some? ==> cur == Wanted(d, k)) && !Leaves(d, k, cur)
  }

  ghost predicate Settled(d: Desired, c: Shadow) {
    forall k :: SettledAt(d, k, Look(c, k))
  }

  /** The change set is empty exactly when every object is settled. */
  lemma NothingToDo(d: Desired, c: Shadow)
    requires CanonicalDesired(d)
    ensures DiffOps(d, c) == [] <==> Settled(d, c)
  {
    var ops := DiffOps(d, c);
    if ops == [] {
      forall k ensures SettledAt(d, k, Look(c, k)) {
        if Wanted(d, k).Some? {
          WantedIsKeyed(d, k);
          DiffWrites(d, c, Wanted(d, k).value);
        }
        DiffRemoves(d, c, k);
      }
    } else {
      match EffectOf(ops[0]) {
        case Put(o) =>
          assert Has(ops, Put(o));
          DiffWrites(d, c, o);
          assert !SettledAt(d, KeyOf(o), Look(c, KeyOf(o)));
        case Del(k) =>
          assert Has(ops, Del(k));
          DiffRemoves(d, c, k);
          assert !SettledAt(d, k, Look(c, k));
      }
    }
  }

  /** The request does not ask for an object and for its removal at once, directly or with what carries it. */
  ghost predicate SeparateAt(d: Desired, k: ObjKey) {
    Wanted(d, k).Some? ==> !Dropped(d, k) && forall via :: Dropped(d, via) ==> !Carries(via, Wanted(d, k).value)
  }

  ghost predicate Separate(d: Desired) {
    forall k :: SeparateAt(d, k)
  }

  lemma DiffIsConsistent(d: Desired, c: Shadow)
    requires CanonicalDesired(d)
    ensures OneValueEach(DiffOps(d, c))
  {
    var ops := DiffOps(d, c);
    forall i, j, k | 0 <= i < |ops| && 0 <= j < |ops| && Sets(ops[i], k) && Sets(ops[j], k)
      ensures EffectOf(ops[i]) == EffectOf(ops[j])
    {
      assert Has(ops, EffectOf(ops[i])) && Has(ops, EffectOf(ops[j]));
      DiffWrites(d, c, EffectOf(ops[i]).obj);
      DiffWrites(d, c, EffectOf(ops[j]).obj);
    }
  }

  lemma SeparateIsIndependent(d: Desired, c: Shadow)
    requires CanonicalDesired(d) && Separate(d)
    ensures Independent(DiffOps(d, c))
  {
    var ops := DiffOps(d, c);
    DiffIsConsistent(d, c);
    forall i, j | 0 <= i < |ops| && 0 <= j < |ops| ensures !Conflict(ops[i], ops[j]) {
      if EffectOf(ops[i]).Put? && EffectOf(ops[j]).Del? {
        var o := EffectOf(ops[i]).obj;
        var k := EffectOf(ops[j]).key;
        assert Has(ops, Put(o)) && Has(ops, Del(k));
        DiffWrites(d, c, o);
        DiffRemoves(d, c, k);
        assert SeparateAt(d, KeyOf(o));
      }
    }
  }

  lemma SettlesWanted(d: Desired, c: Shadow, k: ObjKey)
    requires CanonicalDesired(d) && Separate(d) && Wanted(d, k).Some?
    ensures Fate(Look(c, k), k, DiffOps(d, c)) == Wanted(d, k)
  {
    var ops := DiffOps(d, c);
    var o := Wanted(d, k).value;
    SeparateIsIndependent(d, c);
    FateOfIndependent(Look(c, k), k, ops);
    WantedIsKeyed(d, k);
    DiffWrites(d, c, o);
    if Look(c, k) != Some(o) {
      var i :| 0 <= i < |ops| && EffectOf(ops[i]) == Put(o);
      assert Sets(ops[i], k);
    } else {
      NoWrite(d, c, k);
      WantedIsNotRemoved(d, c, k);
    }
  }

  lemma WantedIsNotRemoved(d: Desired, c: Shadow, k: ObjKey)
    requires CanonicalDesired(d) && Separate(d) && Wanted(d, k).Some?
    ensures !RemovedIn(DiffOps(d, c), k, Wanted(d, k).value)
  {
    var ops := DiffOps(d, c);
    assert SeparateAt(d, k);
    forall i | 0 <= i < |ops| ensures !Removes(ops[i], k, Wanted(d, k).value) {
      if EffectOf(ops[i]).Del? {
        assert Has(ops, Del(EffectOf(ops[i]).key));
        DiffRemoves(d, c, EffectOf(ops[i]).key);
      }
    }
  }

  lemma SettlesUnwanted(d: Desired, c: Shadow, k: ObjKey)
    requires CanonicalDesired(d) && Wanted(d, k).None?
    ensures !Leaves(d, k, Fate(Look(c, k), k, DiffOps(d, c)))
  {
    var ops := DiffOps(d, c);
    var cur := Look(c, k);
    NoWrite(d, c, k);
    FateWithoutSets(cur, k, ops);
    DiffRemoves(d, c, k);
    if Leaves(d, k, cur) {
      var i :| 0 <= i < |ops| && EffectOf(ops[i]) == Del(k);
      assert Removes(ops[i], k, cur.value);
    }
  }

  /** Applying the difference settles every object when the request is separate. */
  lemma SettlesAt(d: Desired, c: Shadow, k: ObjKey)
    requires CanonicalDesired(d) && Separate(d)
    ensures SettledAt(d, k, Fate(Look(c, k), k, DiffOps(d, c)))
  {
    if Wanted(d, k).Some? {
      SettlesWanted(d, c, k);
      assert SeparateAt(d, k);
    } else {
      SettlesUnwanted(d, c, k);
    }
  }

  /** A key without a wanted object, or already as wanted, is not written. */
  lemma NoWrite(d: Desired, c: Shadow, k: ObjKey)
    requires CanonicalDesired(d) && (Wanted(d, k).None? || Look(c, k) == Wanted(d, k))
    ensures !SetIn(DiffOps(d, c), k)
  {
    var ops := DiffOps(d, c);
    forall i | 0 <= i < |ops| ensures !Sets(ops[i], k) {
      if EffectOf(ops[i]).Put? {
        assert Has(ops, EffectOf(ops[i]));
        DiffWrites(d, c, EffectOf(ops[i]).obj);
      }
    }
  }

  lemma Converges(d: Desired, c: Shadow)
    requires CanonicalDesired(d) && Separate(d)
    ensures DiffOps(d, Applied(c, DiffOps(d, c))) == []
  {
    var ops := DiffOps(d, c);
    forall k ensures SettledAt(d, k, Look(Applied(c, ops), k)) {
      AppliedActsOnEachObject(c, ops, k);
      SettlesAt(d, c, k);
    }
    NothingToDo(d, Applied(c, ops));
  }

  // ---- A request that is not separate undoes itself ----

  /** Removals come after the writes they meet, so the object is gone at the end. */
  lemma Undone(cur: Option<Obj>, k: ObjKey, o: Obj, via: ObjKey, ops: seq<ChangeOp>)
    requires Ranked(ops, 0, 11) && Has(ops, Del(via)) && KeyOf(o) == k && (via == k || Carries(via, o))
    requires forall i :: 0 <= i < |ops| && Sets(ops[i], k) ==> EffectOf(ops[i]) == Put(o)
    requires !SetIn(ops, k) && cur.Some? ==> via == k || Carries(via, cur.value)
    ensures Fate(cur, k, ops) == None
  {
    var j :| 0 <= j < |ops| && EffectOf(ops[j]) == Del(via);
    if SetIn(ops, k) {
      var i := LastSet(ops, k);
      FateAfterLastSet(cur, k, ops, i);
      WritesComeFirst(o, via);
      assert Rank(ops[i]) < Rank(ops[j]);
      assert i < j;
      var tail := ops[i + 1..];
      assert tail[j - i - 1] == ops[j];
      assert Removes(tail[j - i - 1], k, o);
    } else {
      FateWithoutSets(cur, k, ops);
      if cur.Some? { assert Removes(ops[j], k, cur.value); }
    }
  }

  lemma WritesComeFirst(o: Obj, via: ObjKey)
    requires via == KeyOf(o) || Carries(via, o)
    ensures RankOf(Put(o)) < RankOf(Del(via))
  {
  }

  /** A state with one object. */
  function Only(o: Obj): Shadow {
    var s := EmptyShadow("");
    match o
    case VlanObj(v) => s.(vlans := map[v.vlanId := v])
    case InterfaceObj(i) => s.(interfaces := map[i.name := i])
    case AclObj(a) => s.(acls := map[a.aclId := a])
    case BindingObj(b) => s.(bindings := map[BindingKeyOf(b) := b])
    case ProcessObj(p) => s.(processes := map[p.vrf := p])
    case NeighborObj(n) => s.(neighbors := map[NeighborKeyOf(n) := n])
  }

  predicate NormalObj(o: Obj) {
    match o
    case VlanObj(v) => NormalVlan(v) == v
    case InterfaceObj(i) => NormalInterface(i) == i
    case AclObj(a) => NormalAcl(a) == a
    case BindingObj(b) => NormalBinding(b) == b
    case ProcessObj(p) => NormalProcess(p) == p
    case NeighborObj(n) => NormalNeighbor(n) == n
  }

  lemma OnlyHolds(o: Obj)
    ensures forall k :: Look(Only(o), k) == if k == KeyOf(o) then Some(o) else None
    ensures NormalObj(o) ==> CanonicalShadow(Only(o))
  {
  }

  lemma WantedIsNormal(d: Desired, k: ObjKey)
    requires CanonicalDesired(d) && Wanted(d, k).Some?
    ensures NormalObj(Wanted(d, k).value)
  {
  }

  /** A wanted object is lost for good from this state. */
  lemma Lost(d: Desired, c: Shadow, k: ObjKey, via: ObjKey)
    requires CanonicalDesired(d) && Wanted(d, k).Some? && Leaves(d, via, Look(c, via))
    requires via == k || Carries(via, Wanted(d, k).value)
    requires Look(c, k).Some? && via != k ==> Look(c, k) == Wanted(d, k)
    ensures DiffOps(d, Applied(c, DiffOps(d, c))) != []
  {
    var ops := DiffOps(d, c);
    var o := Wanted(d, k).value;
    WantedIsKeyed(d, k);
    DiffIsRanked(d, c);
    DiffRemoves(d, c, via);
    forall i | 0 <= i < |ops| && Sets(ops[i], k) ensures EffectOf(ops[i]) == Put(o) {
      assert Has(ops, EffectOf(ops[i]));
      DiffWrites(d, c, EffectOf(ops[i]).obj);
    }
    Undone(Look(c, k), k, o, via, ops);
    AppliedActsOnEachObject(c, ops, k);
    NothingToDo(d, Applied(c, ops));
    assert !SettledAt(d, k, Look(Applied(c, ops), k));
  }

  /** The object that triggers a removal request. */
  function Victim(d: Desired, via: ObjKey, o: Obj): Obj
    requires Dropped(d, via)
  {
    match via
    case BindingKey(b) => BindingObj(d.deleteBindings[b])
    case AclKey(a) => if Carries(via, o) then AclObj(AclConfig(a, AdvancedIpv4, None, None, [])) else o
    case ProcessKey(v) => if Carries(via, o) then ProcessObj(BgpProcess(v, 0, None)) else o
    case _ => o
  }

  lemma VictimIsKeyed(d: Desired, k: ObjKey, via: ObjKey)
    requires CanonicalDesired(d) && Wanted(d, k).Some? && Dropped(d, via)
    requires via == k || Carries(via, Wanted(d, k).value)
    ensures var x := Victim(d, via, Wanted(d, k).value);
            KeyOf(x) == via && NormalObj(x) && Leaves(d, via, Some(x))
  {
    WantedIsKeyed(d, k);
    WantedIsNormal(d, k);
  }

  lemma Diverges(d: Desired, k: ObjKey) returns (c: Shadow)
    requires CanonicalDesired(d) && !SeparateAt(d, k)
    ensures CanonicalShadow(c) && DiffOps(d, Applied(c, DiffOps(d, c))) != []
  {
    var o := Wanted(d, k).value;
    var via := k;
    if !Dropped(d, k) {
      via :| Dropped(d, via) && Carries(via, o);
    }
    WantedIsKeyed(d, k);
    VictimIsKeyed(d, k, via);
    var x := Victim(d, via, o);
    OnlyHolds(x);
    c := Only(x);
    assert Look(c, via) == Some(x);
    Lost(d, c, k, via);
  }

  // ---- States stay canonical ----

  predicate NormalAt(k: ObjKey, cur: Option<Obj>) {
    cur.Some? ==> KeyOf(cur.value) == k && NormalObj(cur.value)
  }

  lemma VlansAreNormal(s: Shadow)
    requires forall k :: NormalAt(k, Look(s, k))
    ensures Canonical(s.vlans, NormalVlan, VlanKeyOf)
  {
    forall x | x in s.vlans ensures VlanKeyOf(s.vlans[x]) == x && NormalVlan(s.vlans[x]) == s.vlans[x] {
      assert NormalAt(VlanKey(x), Look(s, VlanKey(x)));
    }
  }

  lemma InterfacesAreNormal(s: Shadow)
    requires forall k :: NormalAt(k, Look(s, k))
    ensures Canonical(s.interfaces, NormalInterface, InterfaceKeyOf)
  {
    forall x | x in s.interfaces ensures InterfaceKeyOf(s.interfaces[x]) == x && NormalInterface(s.interfaces[x]) == s.interfaces[x] {
      assert NormalAt(InterfaceKey(x), Look(s, InterfaceKey(x)));
    }
  }

  lemma AclsAreNormal(s: Shadow)
    requires forall k :: NormalAt(k, Look(s, k))
    ensures Canonical(s.acls, NormalAcl, AclKeyOf)
  {
    forall x | x in s.acls ensures AclKeyOf(s.acls[x]) == x && NormalAcl(s.acls[x]) == s.acls[x] {
      assert NormalAt(AclKey(x), Look(s, AclKey(x)));
    }
  }

  lemma BindingsAreNormal(s: Shadow)
    requires forall k :: NormalAt(k, Look(s, k))
    ensures Canonical(s.bindings, NormalBinding, BindingKeyOf)
  {
    forall x | x in s.bindings ensures BindingKeyOf(s.bindings[x]) == x && NormalBinding(s.bindings[x]) == s.bindings[x] {
      assert NormalAt(BindingKey(x), Look(s, BindingKey(x)));
    }
  }

  lemma ProcessesAreNormal(s: Shadow)
    requires forall k :: NormalAt(k, Look(s, k))
    ensures Canonical(s.processes, NormalProcess, ProcessKeyOf)
  {
    forall x | x in s.processes ensures ProcessKeyOf(s.processes[x]) == x && NormalProcess(s.processes[x]) == s.processes[x] {
      assert NormalAt(ProcessKey(x), Look(s, ProcessKey(x)));
    }
  }

  lemma NeighborsAreNormal(s: Shadow)
    requires forall k :: NormalAt(k, Look(s, k))
    ensures Canonical(s.neighbors, NormalNeighbor, NeighborKeyOf)
  {
    forall x | x in s.neighbors ensures NeighborKeyOf(s.neighbors[x]) == x && NormalNeighbor(s.neighbors[x]) == s.neighbors[x] {
      assert NormalAt(NeighborKey(x), Look(s, NeighborKey(x)));
    }
  }

  lemma CanonicalAtObject(s: Shadow, k: ObjKey)
    requires CanonicalShadow(s)
    ensures NormalAt(k, Look(s, k))
  {
  }

  lemma CanonicalByObject(s: Shadow)
    ensures CanonicalShadow(s) <==> forall k :: NormalAt(k, Look(s, k))
  {
    if CanonicalShadow(s) {
      forall k ensures NormalAt(k, Look(s, k)) { CanonicalAtObject(s, k); }
    }
    if forall k :: NormalAt(k, Look(s, k)) {
      VlansAreNormal(s);
      InterfacesAreNormal(s);
      AclsAreNormal(s);
      BindingsAreNormal(s);
      ProcessesAreNormal(s);
      NeighborsAreNormal(s);
    }
  }

  lemma FateIsNormal(cur: Option<Obj>, k: ObjKey, ops: seq<ChangeOp>)
    requires NormalAt(k, cur) && forall i :: 0 <= i < |ops| && EffectOf(ops[i]).Put? ==> NormalObj(EffectOf(ops[i]).obj)
    ensures NormalAt(k, Fate(cur, k, ops))
  {
    if SetIn(ops, k) {
      var i := LastSet(ops, k);
      FateAfterLastSet(cur, k, ops, i);
    } else {
      FateWithoutSets(cur, k, ops);
    }
  }

  lemma DiffWritesNormalObjects(d: Desired, c: Shadow)
    requires CanonicalDesired(d)
    ensures var ops := DiffOps(d, c);
            forall i :: 0 <= i < |ops| && EffectOf(ops[i]).Put? ==> NormalObj(EffectOf(ops[i]).obj)
  {
    var ops := DiffOps(d, c);
    forall i | 0 <= i < |ops| && EffectOf(ops[i]).Put? ensures NormalObj(EffectOf(ops[i]).obj) {
      var o := EffectOf(ops[i]).obj;
      assert Has(ops, Put(o));
      DiffWrites(d, c, o);
      WantedIsNormal(d, KeyOf(o));
    }
  }

  /** A change set, whatever it was computed against, keeps a canonical state canonical: every state
      recorded from change sets is its own normal form. */
  lemma RecordedStateStaysCanonical(desired: Desired, current: Shadow, s: Shadow)
    requires CanonicalShadow(s)
    ensures var after := Applied(s, ChangeSet(desired, current));
            CanonicalShadow(after) && NormalShadow(after) == after
  {
    var d := NormalDesired(desired);
    var c := NormalShadow(current);
    var ops := DiffOps(d, c);
    NormalDesiredIsCanonical(desired);
    DiffWritesNormalObjects(d, c);
    CanonicalByObject(s);
    forall k ensures NormalAt(k, Look(Applied(s, ops), k)) {
      assert NormalAt(k, Look(s, k));
      AppliedActsOnEachObject(s, ops, k);
      FateIsNormal(Look(s, k), k, ops);
    }
    CanonicalByObject(Applied(s, ops));
    NormalShadowIsCanonical(Applied(s, ops));
  }

  /** The states recorded one after the other, each from the change set of some request against some state. */
  ghost function RecordedFrom(s: Shadow, requests: seq<(Desired, Shadow)>): Shadow {
    if requests == [] then s
    else
      var n := |requests| - 1;
      Applied(RecordedFrom(s, requests[..n]), ChangeSet(requests[n].0, requests[n].1))
  }

  /** Every state recorded from an empty one by any change sets is its own normal form. */
  lemma {:induction false} EveryRecordedStateIsCanonical(device: string, requests: seq<(Desired, Shadow)>)
    ensures var s := RecordedFrom(EmptyShadow(device), requests);
            CanonicalShadow(s) && NormalShadow(s) == s
  {
    if requests == [] {
      NormalShadowIsCanonical(EmptyShadow(device));
    } else {
      var n := |requests| - 1;
      EveryRecordedStateIsCanonical(device, requests[..n]);
      RecordedStateStaysCanonical(requests[n].0, requests[n].1, RecordedFrom(EmptyShadow(device), requests[..n]));
    }
  }

  // ---- The main results ----

  /** A desired state can be applied once and for all, from every canonical state, exactly when it does
      not ask for an object and its removal at once. */
  lemma ConvergesExactlyWhenSeparate(desired: Desired)
    ensures Separate(NormalDesired(desired)) <==>
            forall current :: CanonicalShadow(current) ==>
              ChangeSet(desired, Applied(current, ChangeSet(desired, current))) == []
  {
    var d := NormalDesired(desired);
    NormalDesiredIsCanonical(desired);
    if Separate(d) {
      forall current | CanonicalShadow(current)
        ensures ChangeSet(desired, Applied(current, ChangeSet(desired, current))) == []
      {
        SameAsNormal(desired, current);
        Converges(d, current);
      }
    } else {
      var k :| !SeparateAt(d, k);
      var c := Diverges(d, k);
      SameAsNormal(desired, c);
      assert ChangeSet(desired, Applied(c, ChangeSet(desired, c))) != [];
    }
  }

  lemma SameAsNormal(desired: Desired, c: Shadow)
    requires CanonicalShadow(c)
    ensures var d := NormalDesired(desired);
            && ChangeSet(desired, c) == DiffOps(d, c)
            && ChangeSet(desired, Applied(c, ChangeSet(desired, c))) == DiffOps(d, Applied(c, DiffOps(d, c)))
  {
    NormalShadowIsCanonical(c);
    RecordedStateStaysCanonical(desired, c, c);
  }

  /** An object that is not wanted stays as it is unless it is asked to go itself or is carried by an
      object that goes. */
  lemma UnwantedObjectsStayUnlessAsked(d: Desired, c: Shadow, k: ObjKey)
    requires CanonicalDesired(d) && Wanted(d, k).None?
    ensures var gone := Look(c, k).Some? && exists via ::
              Leaves(d, via, Look(c, via)) && (via == k || Carries(via, Look(c, k).value));
            Look(Applied(c, DiffOps(d, c)), k) == if gone then None else Look(c, k)
  {
    var ops := DiffOps(d, c);
    var cur := Look(c, k);
    NoWrite(d, c, k);
    AppliedActsOnEachObject(c, ops, k);
    FateWithoutSets(cur, k, ops);
    if cur.Some? {
      if RemovedIn(ops, k, cur.value) {
        var i :| 0 <= i < |ops| && Removes(ops[i], k, cur.value);
        assert Has(ops, Del(EffectOf(ops[i]).key));
        DiffRemoves(d, c, EffectOf(ops[i]).key);
      }
      if via :| Leaves(d, via, Look(c, via)) && (via == k || Carries(via, cur.value)) {
        DiffRemoves(d, c, via);
        var i :| 0 <= i < |ops| && EffectOf(ops[i]) == Del(via);
        assert Removes(ops[i], k, cur.value);
      }
    }
  }
}
