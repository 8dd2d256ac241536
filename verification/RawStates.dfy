/** The comparison and the audit in terms of states as they are written, before normalising. */
module RawStates {
  import opened Wrappers
  import opened Text
  import opened ConfigModel
  import opened Normalize
  import opened Objects
  import opened Diff
  import opened DiffContents
  import opened Convergence
  import opened Drift
  import opened Spellings
  import opened Sameness
  import PlannedStates

  /** Two objects have the same place on a device, however they are written. */
  predicate SamePlace(a: Obj, b: Obj) {
    match (a, b)
    case (VlanObj(v), VlanObj(w)) => v.vlanId == w.vlanId
    case (InterfaceObj(i), InterfaceObj(j)) => SameName(i.name, j.name)
    case (AclObj(x), AclObj(y)) => x.aclId == y.aclId
    case (BindingObj(x), BindingObj(y)) => SameName(x.interfaceName, y.interfaceName) && x.direction == y.direction
    case (ProcessObj(p), ProcessObj(q)) => Trim(p.vrf) == Trim(q.vrf)
    case (NeighborObj(n), NeighborObj(m)) =>
      BgpNeighborKey(Trim(n.vrf), Trim(n.address)) == BgpNeighborKey(Trim(m.vrf), Trim(m.address))
    case (_, _) => false
  }

  lemma SameBindingPlace(x: AclBinding, y: AclBinding)
    ensures BindingKeyOf(NormalBinding(x)) == BindingKeyOf(NormalBinding(y))
       <==> SameName(x.interfaceName, y.interfaceName) && x.direction == y.direction
  {
    NamesAreTheSame(x.interfaceName, y.interfaceName);
    var a, b := NormalBinding(x), NormalBinding(y);
    if BindingKeyOf(a) == BindingKeyOf(b) {
      Clashes.BindingKeysDiffer(a.interfaceName, a.direction, b.interfaceName, b.direction);
    }
  }

  lemma PlaceIsNormalKey(a: Obj, b: Obj)
    ensures KeyOf(NormalOf(a)) == KeyOf(NormalOf(b)) <==> SamePlace(a, b)
  {
    match (a, b)
    case (InterfaceObj(i), InterfaceObj(j)) => NamesAreTheSame(i.name, j.name);
    case (BindingObj(x), BindingObj(y)) => SameBindingPlace(x, y);
    case (_, _) =>
  }

  /** No object is written twice. */
  ghost predicate OnceEach(s: Shadow) {
    forall y, z :: Look(s, y).Some? && Look(s, z).Some? && SamePlace(Look(s, y).value, Look(s, z).value) ==> y == z
  }

  lemma FormOfOnly(s: Shadow, y: ObjKey)
    requires OnceEach(s) && Look(s, y).Some?
    ensures Look(NormalShadow(s), KeyOf(NormalOf(Look(s, y).value))) == Some(NormalOf(Look(s, y).value))
  {
    var k := KeyOf(NormalOf(Look(s, y).value));
    forall z | Spells(s, z, k) ensures KeyLe(z, y) {
      PlaceIsNormalKey(Look(s, y).value, Look(s, z).value);
      Ordering.StringLeTotal();
    }
    FormOfLast(s, y, k);
  }

  /** The state holds the same object. */
  ghost predicate Holds(c: Shadow, o: Obj) {
    exists z :: Look(c, z).Some? && Same(o, Look(c, z).value)
  }

  lemma HoldsByForm(c: Shadow, o: Obj)
    requires OnceEach(c)
    ensures Holds(c, o) <==> Look(NormalShadow(c), KeyOf(NormalOf(o))) == Some(NormalOf(o))
  {
    if Holds(c, o) {
      var z :| Look(c, z).Some? && Same(o, Look(c, z).value);
      SameExactlyWhenOneForm(o, Look(c, z).value);
      FormOfOnly(c, z);
    }
    if Look(NormalShadow(c), KeyOf(NormalOf(o))) == Some(NormalOf(o)) {
      var z := LastSpelling(c, KeyOf(NormalOf(o)));
      SameExactlyWhenOneForm(o, Look(c, z).value);
    }
  }

  // ---- What is asked to go ----

  /** The request asks for this object to go. A binding is meant only with the ACL it binds. */
  ghost predicate AskedToGo(d: Desired, x: Obj) {
    match x
    case VlanObj(v) => v.vlanId in d.deleteVlans
    case InterfaceObj(i) => exists n :: n in d.deleteInterfaces && SameName(n, i.name)
    case AclObj(a) => a.aclId in d.deleteAcls
    case BindingObj(b) => exists y :: y in d.deleteBindings && SameBinding(d.deleteBindings[y], b)
    case ProcessObj(p) => exists v :: v in d.deleteProcesses && Trim(v) == Trim(p.vrf)
    case NeighborObj(n) => exists y :: y in d.deleteNeighbors && SamePlace(NeighborObj(d.deleteNeighbors[y]), x)
  }

  ghost predicate BoundOnce(m: map<string, AclBinding>) {
    forall y, z :: y in m && z in m && SamePlace(BindingObj(m[y]), BindingObj(m[z])) ==> y == z
  }

  /** No binding is dropped twice. */
  ghost predicate DropsOnce(d: Desired) { BoundOnce(d.deleteBindings) }

  lemma PortAskedToGo(d: Desired, i: InterfaceConfig)
    ensures CanonicalName(i.name) in NormalDesired(d).deleteInterfaces <==> AskedToGo(d, InterfaceObj(i))
  {
    forall n ensures CanonicalName(n) == CanonicalName(i.name) <==> SameName(n, i.name) {
      NamesAreTheSame(n, i.name);
    }
  }

  lemma DroppedBinding(m: map<string, AclBinding>, b: AclBinding)
    requires BoundOnce(m)
    ensures var k := BindingKeyOf(NormalBinding(b));
            (k in NormalBindings(m) && NormalBindings(m)[k].aclId == b.aclId) <==> exists y :: y in m && SameBinding(m[y], b)
  {
    var k := BindingKeyOf(NormalBinding(b));
    if k in NormalBindings(m) {
      var src := LastBinding(m, k);
      SameBindingPlace(m[src], b);
      forall y | y in m && SameBinding(m[y], b) ensures y == src {
        SameBindingPlace(m[y], b);
        SameBindingPlace(m[y], m[src]);
        assert SamePlace(BindingObj(m[y]), BindingObj(m[src]));
      }
    }
    if y :| y in m && SameBinding(m[y], b) {
      BindingIsThere(m, y);
      SameBindingPlace(m[y], b);
    }
  }

  lemma SameNeighborPlace(n: BgpNeighbor, m: BgpNeighbor)
    ensures NeighborKeyOf(NormalNeighbor(n)) == NeighborKeyOf(NormalNeighbor(m)) <==> SamePlace(NeighborObj(n), NeighborObj(m))
  {
  }

  lemma DroppedNeighbor(m: map<string, BgpNeighbor>, n: BgpNeighbor)
    ensures NeighborKeyOf(NormalNeighbor(n)) in NormalNeighbors(m)
       <==> exists y :: y in m && SamePlace(NeighborObj(m[y]), NeighborObj(n))
  {
    if NeighborKeyOf(NormalNeighbor(n)) in NormalNeighbors(m) {
      NeighborHasASource(m, n);
    }
    if y :| y in m && SamePlace(NeighborObj(m[y]), NeighborObj(n)) {
      SameNeighborPlace(m[y], n);
      NeighborIsThere(m, y);
    }
  }

  lemma NeighborHasASource(m: map<string, BgpNeighbor>, n: BgpNeighbor)
    requires NeighborKeyOf(NormalNeighbor(n)) in NormalNeighbors(m)
    ensures exists y :: y in m && SamePlace(NeighborObj(m[y]), NeighborObj(n))
  {
    var src := LastNeighbor(m, NeighborKeyOf(NormalNeighbor(n)));
    SameNeighborPlace(m[src], n);
  }

  lemma PortLeaves(d: Desired, i: InterfaceConfig)
    ensures Leaves(NormalDesired(d), InterfaceKey(CanonicalName(i.name)), Some(InterfaceObj(NormalInterface(i))))
       <==> AskedToGo(d, InterfaceObj(i))
  {
    PortAskedToGo(d, i);
  }

  lemma BindingIsMeant(d: Desired, k: string, b: AclBinding)
    ensures Leaves(NormalDesired(d), BindingKey(k), Some(BindingObj(NormalBinding(b))))
       <==> k in NormalBindings(d.deleteBindings) && NormalBindings(d.deleteBindings)[k].aclId == b.aclId
  {
  }

  lemma BindingLeaves(d: Desired, b: AclBinding)
    requires DropsOnce(d)
    ensures var k := BindingKeyOf(NormalBinding(b));
            Leaves(NormalDesired(d), BindingKey(k), Some(BindingObj(NormalBinding(b)))) <==> AskedToGo(d, BindingObj(b))
  {
    BindingIsMeant(d, BindingKeyOf(NormalBinding(b)), b);
    DroppedBinding(d.deleteBindings, b);
  }

  lemma NeighborLeaves(d: Desired, n: BgpNeighbor)
    ensures var k := NeighborKeyOf(NormalNeighbor(n));
            Leaves(NormalDesired(d), NeighborKey(k), Some(NeighborObj(NormalNeighbor(n)))) <==> AskedToGo(d, NeighborObj(n))
  {
    DroppedNeighbor(d.deleteNeighbors, n);
  }

  lemma ProcessLeaves(d: Desired, p: BgpProcess)
    ensures Leaves(NormalDesired(d), ProcessKey(Trim(p.vrf)), Some(ProcessObj(NormalProcess(p)))) <==> AskedToGo(d, ProcessObj(p))
  {
  }

  /** The normalised request takes the normalised object away exactly when the request asks for it to go. */
  lemma LeavesWhenAsked(d: Desired, x: Obj)
    requires DropsOnce(d)
    ensures Leaves(NormalDesired(d), KeyOf(NormalOf(x)), Some(NormalOf(x))) <==> AskedToGo(d, x)
  {
    match x
    case InterfaceObj(i) => PortLeaves(d, i);
    case BindingObj(b) => BindingLeaves(d, b);
    case ProcessObj(p) => ProcessLeaves(d, p);
    case NeighborObj(n) => NeighborLeaves(d, n);
    case _ =>
  }

  // ---- The comparison ----

  /** Every wanted object is there, and nothing that is there is asked to go. */
  ghost predicate InAgreement(d: Desired, c: Shadow) {
    && (forall y :: Wanted(d, y).Some? ==> Holds(c, Wanted(d, y).value))
    && (forall z :: Look(c, z).Some? ==> !AskedToGo(d, Look(c, z).value))
  }

  ghost predicate WrittenOnce(d: Desired, c: Shadow) {
    OnceEach(ShadowFrom(d)) && DropsOnce(d) && OnceEach(c)
  }

  lemma RawWanted(d: Desired, y: ObjKey)
    requires OnceEach(ShadowFrom(d)) && Wanted(d, y).Some?
    ensures Wanted(NormalDesired(d), KeyOf(NormalOf(Wanted(d, y).value))) == Some(NormalOf(Wanted(d, y).value))
  {
    PlannedStates.SameMapsLookAlike(ShadowFrom(d), d, y);
    FormOfOnly(ShadowFrom(d), y);
    PlannedStates.EchoLooksAsWanted(d, KeyOf(NormalOf(Wanted(d, y).value)));
  }

  lemma WantedHasASource(d: Desired, k: ObjKey) returns (y: ObjKey)
    requires Wanted(NormalDesired(d), k).Some?
    ensures Wanted(d, y).Some? && Wanted(NormalDesired(d), k) == Some(NormalOf(Wanted(d, y).value))
    ensures KeyOf(NormalOf(Wanted(d, y).value)) == k
  {
    PlannedStates.EchoLooksAsWanted(d, k);
    y := LastSpelling(ShadowFrom(d), k);
    PlannedStates.SameMapsLookAlike(ShadowFrom(d), d, y);
  }

  /** An object is written exactly when the device does not hold it. */
  lemma WritesExactlyWhatIsMissing(d: Desired, c: Shadow, y: ObjKey)
    requires WrittenOnce(d, c) && Wanted(d, y).Some?
    ensures Has(ChangeSet(d, c), Put(NormalOf(Wanted(d, y).value))) <==> !Holds(c, Wanted(d, y).value)
  {
    var o := Wanted(d, y).value;
    NormalDesiredIsCanonical(d);
    RawWanted(d, y);
    HoldsByForm(c, o);
    DiffWrites(NormalDesired(d), NormalShadow(c), NormalOf(o));
  }

  /** An object of the device is removed exactly when the request asks for it to go. */
  lemma RemovesExactlyWhatIsAsked(d: Desired, c: Shadow, z: ObjKey)
    requires WrittenOnce(d, c) && Look(c, z).Some?
    ensures Has(ChangeSet(d, c), Del(KeyOf(NormalOf(Look(c, z).value)))) <==> AskedToGo(d, Look(c, z).value)
  {
    NormalDesiredIsCanonical(d);
    FormOfOnly(c, z);
    LeavesWhenAsked(d, Look(c, z).value);
    DiffRemoves(NormalDesired(d), NormalShadow(c), KeyOf(NormalOf(Look(c, z).value)));
  }

  /** Whatever is written is an object the request wants, the same in every field up to how it is written. */
  lemma WritesOnlyWhatIsWanted(d: Desired, c: Shadow, o: Obj) returns (y: ObjKey)
    requires Has(ChangeSet(d, c), Put(o))
    ensures Wanted(d, y).Some? && Same(Wanted(d, y).value, o)
  {
    var n := NormalDesired(d);
    NormalDesiredIsCanonical(d);
    DiffWrites(n, NormalShadow(c), o);
    WantedIsNormal(n, KeyOf(o));
    NormalIsItself(o);
    y := WantedHasASource(d, KeyOf(o));
    SameExactlyWhenOneForm(Wanted(d, y).value, o);
  }

  lemma AgreementIsSettled(d: Desired, c: Shadow, k: ObjKey)
    requires WrittenOnce(d, c) && InAgreement(d, c)
    ensures SettledAt(NormalDesired(d), k, Look(NormalShadow(c), k))
  {
    if Wanted(NormalDesired(d), k).Some? {
      var y := WantedHasASource(d, k);
      HoldsByForm(c, Wanted(d, y).value);
    }
    if Look(NormalShadow(c), k).Some? {
      var z := LastSpelling(c, k);
      LeavesWhenAsked(d, Look(c, z).value);
    }
  }

  /** With every object written once in the request and in the report: the change set is empty exactly when every
      wanted object is reported, the same in every field up to how it is written, and nothing reported is asked
      to go. */
  lemma NothingToDoExactlyInAgreement(d: Desired, c: Shadow)
    requires WrittenOnce(d, c)
    ensures ChangeSet(d, c) == [] <==> InAgreement(d, c)
  {
    if InAgreement(d, c) {
      forall k ensures SettledAt(NormalDesired(d), k, Look(NormalShadow(c), k)) {
        AgreementIsSettled(d, c, k);
      }
      NormalDesiredIsCanonical(d);
      NothingToDo(NormalDesired(d), NormalShadow(c));
    }
    if ChangeSet(d, c) == [] {
      forall y | Wanted(d, y).Some? ensures Holds(c, Wanted(d, y).value) {
        WritesExactlyWhatIsMissing(d, c, y);
      }
      forall z | Look(c, z).Some? ensures !AskedToGo(d, Look(c, z).value) {
        RemovesExactlyWhatIsAsked(d, c, z);
      }
    }
  }

  // ---- The audit ----

  /** Every audited object of the one state is in the other. */
  ghost predicate Covers(s: Shadow, t: Shadow) {
    forall y :: Look(s, y).Some? && Audited(y) ==> Holds(t, Look(s, y).value)
  }

  lemma CoveredLooksAlike(s: Shadow, t: Shadow, k: ObjKey)
    requires OnceEach(t) && Covers(s, t) && Audited(k) && Look(NormalShadow(s), k).Some?
    ensures Look(NormalShadow(t), k) == Look(NormalShadow(s), k)
  {
    var y := LastSpelling(s, k);
    SpellingsAreOfOneKind(s, y, k);
    HoldsByForm(t, Look(s, y).value);
  }

  lemma AlikeIsCovered(s: Shadow, t: Shadow)
    requires OnceEach(s) && OnceEach(t) && forall k :: Audited(k) ==> !Drifted(s, t, k)
    ensures Covers(s, t)
  {
    forall y | Look(s, y).Some? && Audited(y) ensures Holds(t, Look(s, y).value) {
      var k := KeyOf(NormalOf(Look(s, y).value));
      SpellingsAreOfOneKind(s, y, k);
      FormOfOnly(s, y);
      HoldsByForm(t, Look(s, y).value);
    }
  }

  /** With every object written once in the record and in the report: the audit finds no drift exactly when the
      two hold the same VLANs, interfaces, ACLs and bindings. */
  lemma NoDriftExactlyWhenTheSame(s: Shadow, t: Shadow)
    requires OnceEach(s) && OnceEach(t)
    ensures (forall k :: Audited(k) ==> !Drifted(s, t, k)) <==> Covers(s, t) && Covers(t, s)
  {
    if Covers(s, t) && Covers(t, s) {
      forall k | Audited(k) ensures !Drifted(s, t, k) {
        if Look(NormalShadow(s), k).Some? {
          CoveredLooksAlike(s, t, k);
        } else if Look(NormalShadow(t), k).Some? {
          CoveredLooksAlike(t, s, k);
        }
      }
    }
    if forall k :: Audited(k) ==> !Drifted(s, t, k) {
      AlikeIsCovered(s, t);
      AlikeIsCovered(t, s);
    }
  }
}
