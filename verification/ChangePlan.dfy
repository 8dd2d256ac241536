/** The staged plan of a change set: references are undone before the objects they name go, and made
    after the objects they name exist. */
module ChangePlan {
  import opened Wrappers
  import opened ConfigModel
  import opened Normalize
  import opened Objects
  import opened Diff
  import opened DiffContents
  import opened Convergence

  datatype StageKind =
    UnbindReferences | DeleteBaseObjects | CreateBaseObjects | UpdateBaseObjects | BindReferences

  datatype Stage = Stage(kind: StageKind, ops: seq<ChangeOp>)

  function KindOf(op: ChangeOp): StageKind {
    match op
    case DeleteBinding(_, _, _) => UnbindReferences
    case DeleteNeighbor(_, _) => UnbindReferences
    case DeleteAcl(_) => DeleteBaseObjects
    case DeleteVlan(_) => DeleteBaseObjects
    case DeleteInterface(_) => DeleteBaseObjects
    case DeleteProcess(_) => DeleteBaseObjects
    case CreateAcl(_) => CreateBaseObjects
    case CreateVlan(_) => CreateBaseObjects
    case CreateProcess(_) => CreateBaseObjects
    case UpdateAcl(_, _) => UpdateBaseObjects
    case UpdateVlan(_, _) => UpdateBaseObjects
    case UpdateInterface(_, _) => UpdateBaseObjects
    case UpdateProcess(_, _) => UpdateBaseObjects
    case CreateBinding(_) => BindReferences
    case UpdateBinding(_, _) => BindReferences
    case CreateNeighbor(_) => BindReferences
    case UpdateNeighbor(_, _) => BindReferences
  }

  function Place(kind: StageKind): nat {
    match kind
    case UnbindReferences => 0
    case DeleteBaseObjects => 1
    case CreateBaseObjects => 2
    case UpdateBaseObjects => 3
    case BindReferences => 4
  }

  /** The operations of one kind, in their order. */
  function OfKind(ops: seq<ChangeOp>, kind: StageKind): seq<ChangeOp> {
    if ops == [] then []
    else
      var n := |ops| - 1;
      if KindOf(ops[n]) == kind then OfKind(ops[..n], kind) + [ops[n]] else OfKind(ops[..n], kind)
  }

  /** The operations in the order of the plan. */
  function Staged(ops: seq<ChangeOp>): seq<ChangeOp> {
    OfKind(ops, UnbindReferences) + OfKind(ops, DeleteBaseObjects) + OfKind(ops, CreateBaseObjects)
    + OfKind(ops, UpdateBaseObjects) + OfKind(ops, BindReferences)
  }

  function Flat(stages: seq<Stage>): seq<ChangeOp> {
    if stages == [] then []
    else
      var n := |stages| - 1;
      Flat(stages[..n]) + stages[n].ops
  }

  /** Every stage holds the whole part of its kind, no stage is empty, and the kinds come in order. */
  ghost predicate Arranged(stages: seq<Stage>, parts: StageKind -> seq<ChangeOp>) {
    && (forall i :: 0 <= i < |stages| ==> stages[i].ops != [] && stages[i].ops == parts(stages[i].kind))
    && (forall i, j :: 0 <= i < j < |stages| ==> Place(stages[i].kind) < Place(stages[j].kind))
  }

  ghost predicate WellStaged(stages: seq<Stage>, ops: seq<ChangeOp>) {
    Arranged(stages, kind => OfKind(ops, kind))
  }

  method PushStage(stages: seq<Stage>, kind: StageKind, part: seq<ChangeOp>, ghost parts: StageKind -> seq<ChangeOp>)
    returns (r: seq<Stage>)
    requires Arranged(stages, parts) && part == parts(kind)
    requires forall i :: 0 <= i < |stages| ==> Place(stages[i].kind) < Place(kind)
    ensures Arranged(r, parts) && Flat(r) == Flat(stages) + part
    ensures forall i :: 0 <= i < |r| ==> Place(r[i].kind) <= Place(kind)
  {
    r := stages;
    if part != [] {
      r := stages + [Stage(kind, part)];
      assert r[..|stages|] == stages;
    }
  }

  method PushStages(unbind: seq<ChangeOp>, deletes: seq<ChangeOp>, creates: seq<ChangeOp>, updates: seq<ChangeOp>,
                    bind: seq<ChangeOp>, ghost parts: StageKind -> seq<ChangeOp>) returns (stages: seq<Stage>)
    requires unbind == parts(UnbindReferences) && deletes == parts(DeleteBaseObjects) && creates == parts(CreateBaseObjects)
    requires updates == parts(UpdateBaseObjects) && bind == parts(BindReferences)
    ensures Arranged(stages, parts) && Flat(stages) == unbind + deletes + creates + updates + bind
  {
    stages := PushStage([], UnbindReferences, unbind, parts);
    assert Flat(stages) == unbind;
    stages := PushStage(stages, DeleteBaseObjects, deletes, parts);
    stages := PushStage(stages, CreateBaseObjects, creates, parts);
    stages := PushStage(stages, UpdateBaseObjects, updates, parts);
    stages := PushStage(stages, BindReferences, bind, parts);
  }

  lemma OneMoreOfKind(ops: seq<ChangeOp>, i: nat, kind: StageKind)
    requires i < |ops|
    ensures OfKind(ops[..i + 1], kind) == OfKind(ops[..i], kind) + (if KindOf(ops[i]) == kind then [ops[i]] else [])
  {
    assert ops[..i + 1][..i] == ops[..i];
  }

  /** The operations of each kind, in their order. */
  method SortByKind(ops: seq<ChangeOp>)
    returns (unbind: seq<ChangeOp>, deletes: seq<ChangeOp>, creates: seq<ChangeOp>, updates: seq<ChangeOp>, bind: seq<ChangeOp>)
    ensures unbind == OfKind(ops, UnbindReferences) && deletes == OfKind(ops, DeleteBaseObjects)
    ensures creates == OfKind(ops, CreateBaseObjects) && updates == OfKind(ops, UpdateBaseObjects)
    ensures bind == OfKind(ops, BindReferences)
  {
    unbind, deletes, creates, updates, bind := [], [], [], [], [];
    for i := 0 to |ops|
      invariant unbind == OfKind(ops[..i], UnbindReferences) && deletes == OfKind(ops[..i], DeleteBaseObjects)
      invariant creates == OfKind(ops[..i], CreateBaseObjects) && updates == OfKind(ops[..i], UpdateBaseObjects)
      invariant bind == OfKind(ops[..i], BindReferences)
    {
      OneMoreOfKind(ops, i, UnbindReferences);
      OneMoreOfKind(ops, i, DeleteBaseObjects);
      OneMoreOfKind(ops, i, CreateBaseObjects);
      OneMoreOfKind(ops, i, UpdateBaseObjects);
      OneMoreOfKind(ops, i, BindReferences);
      var op := ops[i];
      match KindOf(op) {
        case UnbindReferences => unbind := unbind + [op];
        case DeleteBaseObjects => deletes := deletes + [op];
        case CreateBaseObjects => creates := creates + [op];
        case UpdateBaseObjects => updates := updates + [op];
        case BindReferences => bind := bind + [op];
      }
    }
    assert ops[..|ops|] == ops;
  }

  /** The plan lists every operation once, stage by stage, without empty stages. */
  method BuildStages(ops: seq<ChangeOp>) returns (stages: seq<Stage>)
    ensures WellStaged(stages, ops) && Flat(stages) == Staged(ops)
  {
    var unbind, deletes, creates, updates, bind := SortByKind(ops);
    stages := PushStages(unbind, deletes, creates, updates, bind, kind => OfKind(ops, kind));
  }

  lemma {:induction false} OfKindHolds(ops: seq<ChangeOp>, kind: StageKind)
    ensures forall i :: 0 <= i < |OfKind(ops, kind)| ==> KindOf(OfKind(ops, kind)[i]) == kind
    ensures forall op :: multiset(OfKind(ops, kind))[op] == if KindOf(op) == kind then multiset(ops)[op] else 0
  {
    if ops != [] {
      var n := |ops| - 1;
      OfKindHolds(ops[..n], kind);
      assert ops == ops[..n] + [ops[n]];
    }
  }

  /** The plan is a rearrangement of the change set. */
  lemma StagedIsPermutation(ops: seq<ChangeOp>)
    ensures multiset(Staged(ops)) == multiset(ops)
    ensures forall op :: op in Staged(ops) <==> op in ops
  {
    OfKindHolds(ops, UnbindReferences);
    OfKindHolds(ops, DeleteBaseObjects);
    OfKindHolds(ops, CreateBaseObjects);
    OfKindHolds(ops, UpdateBaseObjects);
    OfKindHolds(ops, BindReferences);
    forall op ensures multiset(Staged(ops))[op] == multiset(ops)[op] {
      match KindOf(op)
      case UnbindReferences =>
      case DeleteBaseObjects =>
      case CreateBaseObjects =>
      case UpdateBaseObjects =>
      case BindReferences =>
    }
    assert multiset(Staged(ops)) == multiset(ops);
    forall op ensures op in Staged(ops) <==> op in ops {
      assert op in multiset(Staged(ops)) <==> op in multiset(ops);
    }
  }

  ghost predicate InPlace(ops: seq<ChangeOp>) {
    forall i, j :: 0 <= i < j < |ops| ==> Place(KindOf(ops[i])) <= Place(KindOf(ops[j]))
  }

  lemma InPlaceJoin(a: seq<ChangeOp>, b: seq<ChangeOp>, p: nat)
    requires InPlace(a) && (forall i :: 0 <= i < |a| ==> Place(KindOf(a[i])) <= p)
    requires forall i :: 0 <= i < |b| ==> Place(KindOf(b[i])) == p + 1
    ensures InPlace(a + b) && forall i :: 0 <= i < |a + b| ==> Place(KindOf((a + b)[i])) <= p + 1
  {
  }

  lemma StagedIsInPlace(ops: seq<ChangeOp>)
    ensures InPlace(Staged(ops))
  {
    var a, b, c, d, e := OfKind(ops, UnbindReferences), OfKind(ops, DeleteBaseObjects),
      OfKind(ops, CreateBaseObjects), OfKind(ops, UpdateBaseObjects), OfKind(ops, BindReferences);
    OfKindHolds(ops, UnbindReferences);
    OfKindHolds(ops, DeleteBaseObjects);
    OfKindHolds(ops, CreateBaseObjects);
    OfKindHolds(ops, UpdateBaseObjects);
    OfKindHolds(ops, BindReferences);
    InPlaceJoin(a, b, 0);
    InPlaceJoin(a + b, c, 1);
    InPlaceJoin(a + b + c, d, 2);
    InPlaceJoin(a + b + c + d, e, 3);
  }

  /** Operation `late` relies on operation `early`: a binding or neighbour on the ACL or process it names,
      the removal of an ACL or process on the removal of its bindings or neighbours. */
  predicate ReliesOn(late: ChangeOp, early: ChangeOp) {
    match early
    case CreateAcl(a) => BoundAcl(late) == Some(a.aclId)
    case UpdateAcl(_, a) => BoundAcl(late) == Some(a.aclId)
    case CreateProcess(p) => PeerVrf(late) == Some(p.vrf)
    case UpdateProcess(_, p) => PeerVrf(late) == Some(p.vrf)
    case DeleteBinding(_, _, acl) => late == DeleteAcl(acl)
    case DeleteNeighbor(vrf, _) => late == DeleteProcess(vrf)
    case _ => false
  }

  function BoundAcl(op: ChangeOp): Option<u16> {
    match op
    case CreateBinding(b) => Some(b.aclId)
    case UpdateBinding(_, b) => Some(b.aclId)
    case _ => None
  }

  function PeerVrf(op: ChangeOp): Option<string> {
    match op
    case CreateNeighbor(n) => Some(n.vrf)
    case UpdateNeighbor(_, n) => Some(n.vrf)
    case _ => None
  }

  /** Every dependency between two operations of the plan is kept by its order. */
  lemma StagedKeepsDependencies(ops: seq<ChangeOp>, i: nat, j: nat)
    requires i < |Staged(ops)| && j < |Staged(ops)| && ReliesOn(Staged(ops)[i], Staged(ops)[j])
    ensures j < i
  {
    StagedIsInPlace(ops);
  }

  // ---- The plan and the change set mean the same exactly when nothing conflicts ----

  ghost predicate ConflictFree(ops: seq<ChangeOp>) {
    forall i, j :: 0 <= i < |ops| && 0 <= j < |ops| ==> !Conflict(ops[i], ops[j])
  }

  lemma IndependentAfterStaging(ops: seq<ChangeOp>)
    requires Independent(ops)
    ensures Independent(Staged(ops))
  {
    var st := Staged(ops);
    StagedIsPermutation(ops);
    assert forall i :: 0 <= i < |st| ==> st[i] in ops;
    forall i, j | 0 <= i < |st| && 0 <= j < |st| ensures !Conflict(st[i], st[j]) {
      var i' :| 0 <= i' < |ops| && ops[i'] == st[i];
      var j' :| 0 <= j' < |ops| && ops[j'] == st[j];
      assert !Conflict(ops[i'], ops[j']);
    }
    forall i, j, k | 0 <= i < |st| && 0 <= j < |st| && Sets(st[i], k) && Sets(st[j], k)
      ensures EffectOf(st[i]) == EffectOf(st[j])
    {
      var i' :| 0 <= i' < |ops| && ops[i'] == st[i];
      var j' :| 0 <= j' < |ops| && ops[j'] == st[j];
      assert Sets(ops[i'], k) && Sets(ops[j'], k);
    }
  }

  lemma SameMembers(ops: seq<ChangeOp>, k: ObjKey)
    ensures SetIn(Staged(ops), k) <==> SetIn(ops, k)
    ensures forall o :: RemovedIn(Staged(ops), k, o) <==> RemovedIn(ops, k, o)
  {
    var st := Staged(ops);
    StagedIsPermutation(ops);
    assert forall i :: 0 <= i < |st| ==> st[i] in ops;
    assert forall i :: 0 <= i < |ops| ==> ops[i] in st;
  }

  lemma SameFate(cur: Option<Obj>, k: ObjKey, ops: seq<ChangeOp>)
    requires Independent(ops)
    ensures Fate(cur, k, Staged(ops)) == Fate(cur, k, ops)
  {
    var st := Staged(ops);
    IndependentAfterStaging(ops);
    FateOfIndependent(cur, k, ops);
    FateOfIndependent(cur, k, st);
    SameMembers(ops, k);
    if SetIn(ops, k) {
      var i :| 0 <= i < |ops| && Sets(ops[i], k);
      StagedIsPermutation(ops);
      assert ops[i] in st;
      var j :| 0 <= j < |st| && st[j] == ops[i];
      assert Sets(st[j], k);
    }
  }

  /** In the plan every removal comes before every write. */
  lemma StagedRemovesFirst(ops: seq<ChangeOp>, i: nat, j: nat)
    requires i < j < |Staged(ops)| && EffectOf(Staged(ops)[i]).Put?
    ensures EffectOf(Staged(ops)[j]).Put?
  {
    StagedIsInPlace(ops);
  }

  /** What the plan writes is there at the end. */
  lemma StagedKeepsWrites(cur: Option<Obj>, k: ObjKey, ops: seq<ChangeOp>)
    requires SetIn(ops, k)
    ensures Fate(cur, k, Staged(ops)).Some?
  {
    var st := Staged(ops);
    SameMembers(ops, k);
    var last := LastSet(st, k);
    FateAfterLastSet(cur, k, st, last);
    var tail := st[last + 1..];
    forall n | 0 <= n < |tail| ensures !Removes(tail[n], k, EffectOf(st[last]).obj) {
      StagedRemovesFirst(ops, last, last + 1 + n);
    }
  }

  lemma DifferentFate(d: Desired, c: Shadow, cur: Option<Obj>, i: nat, j: nat)
    requires CanonicalDesired(d) && i < |DiffOps(d, c)| && j < |DiffOps(d, c)|
    requires Conflict(DiffOps(d, c)[i], DiffOps(d, c)[j])
    ensures var k := TargetOf(DiffOps(d, c)[i]);
            Fate(cur, k, DiffOps(d, c)) == None && Fate(cur, k, Staged(DiffOps(d, c))).Some?
  {
    var ops := DiffOps(d, c);
    var o := EffectOf(ops[i]).obj;
    DiffIsRanked(d, c);
    DiffIsConsistent(d, c);
    assert Sets(ops[i], KeyOf(o));
    Undone(cur, KeyOf(o), o, EffectOf(ops[j]).key, ops);
    StagedKeepsWrites(cur, KeyOf(o), ops);
  }

  /** From any state, running the plan gives the same state as running the change set in its own order
      exactly when no operation removes what another one writes. */
  lemma PlanMeansChangeSetExactlyWhenConflictFree(desired: Desired, current: Shadow, base: Shadow)
    ensures var ops := ChangeSet(desired, current);
            SameContents(Applied(base, Staged(ops)), Applied(base, ops)) <==> ConflictFree(ops)
  {
    var d := NormalDesired(desired);
    var c := NormalShadow(current);
    var ops := DiffOps(d, c);
    NormalDesiredIsCanonical(desired);
    LookDetermines(Applied(base, Staged(ops)), Applied(base, ops));
    if ConflictFree(ops) {
      DiffIsConsistent(d, c);
      forall k ensures Look(Applied(base, Staged(ops)), k) == Look(Applied(base, ops), k) {
        AppliedActsOnEachObject(base, ops, k);
        AppliedActsOnEachObject(base, Staged(ops), k);
        SameFate(Look(base, k), k, ops);
      }
    } else {
      var i, j :| 0 <= i < |ops| && 0 <= j < |ops| && Conflict(ops[i], ops[j]);
      var k := TargetOf(ops[i]);
      DifferentFate(d, c, Look(base, k), i, j);
      AppliedActsOnEachObject(base, ops, k);
      AppliedActsOnEachObject(base, Staged(ops), k);
      assert Look(Applied(base, Staged(ops)), k) != Look(Applied(base, ops), k);
    }
  }

  /** A separate request never conflicts. */
  lemma SeparateIsConflictFree(desired: Desired, current: Shadow)
    requires Separate(NormalDesired(desired))
    ensures ConflictFree(ChangeSet(desired, current))
  {
    NormalDesiredIsCanonical(desired);
    SeparateIsIndependent(NormalDesired(desired), NormalShadow(current));
  }

  // ---- Which stage an operation is in ----

  predicate IsReference(k: ObjKey) { k.BindingKey? || k.NeighborKey? }

  lemma StageOfUpsert(k: ObjKey, before: Option<Obj>, after: Obj)
    requires KeyOf(after) == k && (before.Some? ==> KeyOf(before.value) == k)
    ensures KindOf(UpsertOp(before, after))
         == if IsReference(k) then BindReferences
            else if before.Some? || k.InterfaceKey? then UpdateBaseObjects else CreateBaseObjects
  {
  }

  lemma StageOfDrop(op: ChangeOp)
    requires EffectOf(op).Del?
    ensures KindOf(op) == if IsReference(TargetOf(op)) then UnbindReferences else DeleteBaseObjects
  {
  }

  /** The place of a stage by what its operations do. */
  function PlaceFor(removes: bool, k: ObjKey, there: bool): nat {
    if removes then (if IsReference(k) then 0 else 1)
    else if IsReference(k) then 4
    else if there || k.InterfaceKey? then 3 else 2
  }

  lemma PlaceOfUpsert(k: ObjKey, before: Option<Obj>, after: Obj)
    requires KeyOf(after) == k && (before.Some? ==> KeyOf(before.value) == k)
    ensures Place(KindOf(UpsertOp(before, after))) == PlaceFor(false, k, before.Some?)
  {
    StageOfUpsert(k, before, after);
  }

  /** Bindings and neighbours are removed in the first stage and made or changed in the last; other objects are
      removed in the second, made in the third and changed in the fourth, an interface always in the fourth. */
  lemma StageFitsTheObject(d: Desired, c: Shadow, op: ChangeOp)
    requires CanonicalDesired(d) && CanonicalShadow(c) && op in DiffOps(d, c)
    ensures Place(KindOf(op)) == PlaceFor(EffectOf(op).Del?, TargetOf(op), Look(c, TargetOf(op)).Some?)
  {
    DiffHolds(d, c, op);
    var v :| Visited(d, v) && Change(d, c, v) == Some(op);
    ChangeMeans(d, c, v);
    CanonicalByObject(c);
    assert NormalAt(v.key, Look(c, v.key));
    if v.Want? {
      WantedIsKeyed(d, v.key);
      PlaceOfUpsert(v.key, Look(c, v.key), Wanted(d, v.key).value);
    } else {
      StageOfDrop(op);
    }
  }

  // ---- Rolling the plan back ----

  /** A rollback step: take away what was made, or restore what was there. A binding is named with its ACL. */
  datatype RollbackStep = TakeAway(key: ObjKey, acl: Option<u16>) | Restore(key: ObjKey, acl: Option<u16>)

  function RollbackOf(op: ChangeOp): RollbackStep {
    match op
    case CreateVlan(v) => TakeAway(VlanKey(v.vlanId), None)
    case UpdateVlan(v, _) => Restore(VlanKey(v.vlanId), None)
    case DeleteVlan(id) => Restore(VlanKey(id), None)
    case UpdateInterface(_, i) => Restore(InterfaceKey(i.name), None)
    case DeleteInterface(n) => Restore(InterfaceKey(n), None)
    case CreateAcl(a) => TakeAway(AclKey(a.aclId), None)
    case UpdateAcl(a, _) => Restore(AclKey(a.aclId), None)
    case DeleteAcl(id) => Restore(AclKey(id), None)
    case CreateBinding(b) => TakeAway(BindingKey(BindingKeyOf(b)), Some(b.aclId))
    case UpdateBinding(b, _) => Restore(BindingKey(BindingKeyOf(b)), Some(b.aclId))
    case DeleteBinding(n, dir, acl) => Restore(BindingKey(AclBindingKey(n, dir)), Some(acl))
    case CreateProcess(p) => TakeAway(ProcessKey(p.vrf), None)
    case UpdateProcess(p, _) => Restore(ProcessKey(p.vrf), None)
    case DeleteProcess(v) => Restore(ProcessKey(v), None)
    case CreateNeighbor(n) => TakeAway(NeighborKey(NeighborKeyOf(n)), None)
    case UpdateNeighbor(n, _) => Restore(NeighborKey(NeighborKeyOf(n)), None)
    case DeleteNeighbor(v, a) => Restore(NeighborKey(BgpNeighborKey(v, a)), None)
  }

  /** The steps undo the operations from the last to the first. */
  ghost predicate Undoes(steps: seq<RollbackStep>, ops: seq<ChangeOp>) {
    |steps| == |ops| && forall i :: 0 <= i < |ops| ==> steps[i] == RollbackOf(ops[|ops| - 1 - i])
  }

  lemma {:induction false} FlatSplits(stages: seq<Stage>, n: nat)
    requires n <= |stages|
    ensures Flat(stages) == Flat(stages[..n]) + Flat(stages[n..])
  {
    if n == |stages| {
      assert stages[..n] == stages;
    } else {
      var m := |stages| - 1;
      FlatSplits(stages[..m], n);
      assert stages[..m][..n] == stages[..n];
      assert stages[..m][n..] == stages[n..][..m - n];
    }
  }

  lemma FlatFirst(stages: seq<Stage>)
    requires stages != []
    ensures Flat(stages) == stages[0].ops + Flat(stages[1..])
  {
    FlatSplits(stages, 1);
    assert Flat(stages[..1][..0]) == [];
  }

  /** The rollback order is exactly the plan read backwards. */
  method RollbackOrder(stages: seq<Stage>) returns (steps: seq<RollbackStep>)
    ensures Undoes(steps, Flat(stages))
  {
    steps := [];
    var i := |stages|;
    assert stages[i..] == [];
    while i > 0
      invariant 0 <= i <= |stages| && Undoes(steps, Flat(stages[i..]))
    {
      i := i - 1;
      assert stages[i..][1..] == stages[i + 1..];
      FlatFirst(stages[i..]);
      var part := stages[i].ops;
      ghost var rest := Flat(stages[i + 1..]);
      var j := |part|;
      assert part[j..] == [];
      while j > 0
        invariant 0 <= j <= |part| && Undoes(steps, part[j..] + rest)
      {
        j := j - 1;
        assert part[j..] == [part[j]] + part[j + 1..];
        steps := steps + [RollbackOf(part[j])];
      }
      assert part[0..] == part;
    }
    assert stages[0..] == stages;
  }

  /** Every rollback step names the object its operation changed. It takes the object away exactly when the
      object was not there before, except that an interface is always restored. The step for a binding names
      the ACL that was bound before, or the one bound now if there was none. */
  lemma RollbackFitsTheObject(d: Desired, c: Shadow, op: ChangeOp)
    requires CanonicalDesired(d) && CanonicalShadow(c) && op in DiffOps(d, c)
    ensures RollbackOf(op).key == TargetOf(op)
    ensures RollbackOf(op).TakeAway? <==> Look(c, TargetOf(op)).None? && !TargetOf(op).InterfaceKey?
    ensures Look(c, TargetOf(op)).Some? ==> RollbackOf(op).acl == BoundTo(Look(c, TargetOf(op)).value)
    ensures Look(c, TargetOf(op)).None? ==> EffectOf(op).Put? && RollbackOf(op).acl == BoundTo(EffectOf(op).obj)
  {
    DiffHolds(d, c, op);
    var v :| Visited(d, v) && Change(d, c, v) == Some(op);
    ChangeMeans(d, c, v);
    CanonicalByObject(c);
    assert NormalAt(v.key, Look(c, v.key));
    if v.Want? {
      WantedIsKeyed(d, v.key);
      RollbackOfUpsert(v.key, Look(c, v.key), Wanted(d, v.key).value);
    } else {
      RollbackOfDrop(op);
      RollbackOfDropNamesTheAcl(d, c, v.key, op);
    }
  }

  function BoundTo(o: Obj): Option<u16> {
    if o.BindingObj? then Some(o.bound.aclId) else None
  }

  lemma RollbackOfDropNamesTheAcl(d: Desired, c: Shadow, k: ObjKey, op: ChangeOp)
    requires Leaves(d, k, Look(c, k)) && op == DropOp(d, k)
    ensures RollbackOf(op).acl == BoundTo(Look(c, k).value)
  {
  }

  lemma RollbackOfUpsert(k: ObjKey, before: Option<Obj>, after: Obj)
    requires KeyOf(after) == k && (before.Some? ==> KeyOf(before.value) == k)
    ensures var op := UpsertOp(before, after);
            && RollbackOf(op).key == k && TargetOf(op) == k
            && (RollbackOf(op).TakeAway? <==> before.None? && !k.InterfaceKey?)
            && RollbackOf(op).acl == BoundTo(if before.Some? then before.value else after)
  {
  }

  lemma RollbackOfDrop(op: ChangeOp)
    requires EffectOf(op).Del?
    ensures RollbackOf(op).Restore? && RollbackOf(op).key == TargetOf(op)
  {
  }

  // ---- References ----

  /** Which references are looked at: those of bindings to ACLs, or those of neighbours to processes as well. */
  datatype References = AclReferences | AllReferences

  /** The object an object names. */
  function Names(refs: References, o: Obj): Option<ObjKey> {
    match o
    case BindingObj(b) => Some(AclKey(b.aclId))
    case NeighborObj(n) => if refs.AllReferences? then Some(ProcessKey(n.vrf)) else None
    case _ => None
  }

  predicate SupportedAt(refs: References, s: Shadow, k: ObjKey) {
    Look(s, k).Some? && Names(refs, Look(s, k).value).Some? ==> Look(s, Names(refs, Look(s, k).value).value).Some?
  }

  /** No binding names a missing ACL and no neighbour a missing process. */
  ghost predicate Supported(refs: References, s: Shadow) {
    forall k :: SupportedAt(refs, s, k)
  }

  /** Every wanted object names an object that is wanted too or is there already. */
  ghost predicate NamesExist(refs: References, d: Desired, c: Shadow) {
    forall k :: Wanted(d, k).Some? && Names(refs, Wanted(d, k).value).Some? ==>
      Wanted(d, Names(refs, Wanted(d, k).value).value).Some? || Look(c, Names(refs, Wanted(d, k).value).value).Some?
  }

  /** No wanted object names an object that is asked to go. */
  ghost predicate NamesKept(refs: References, d: Desired) {
    forall k :: Wanted(d, k).Some? && Names(refs, Wanted(d, k).value).Some? ==>
      !Dropped(d, Names(refs, Wanted(d, k).value).value)
  }

  /** An operation that writes a reference finds what it names. */
  predicate Ready(refs: References, s: Shadow, op: ChangeOp) {
    EffectOf(op).Put? && Names(refs, EffectOf(op).obj).Some? ==> Look(s, Names(refs, EffectOf(op).obj).value).Some?
  }

  lemma OpKeepsSupport(refs: References, s: Shadow, op: ChangeOp)
    requires Supported(refs, s) && Ready(refs, s, op)
    ensures Supported(refs, ApplyOp(s, op))
  {
    var t := ApplyOp(s, op);
    forall k ensures SupportedAt(refs, t, k) {
      ApplyOpActsOnEachObject(s, op, k);
      assert SupportedAt(refs, s, k);
      if Look(t, k).Some? && Names(refs, Look(t, k).value).Some? {
        ApplyOpActsOnEachObject(s, op, Names(refs, Look(t, k).value).value);
      }
    }
  }

  predicate IsBase(o: Obj) { o.AclObj? || o.ProcessObj? }

  /** An ACL or a process that is not removed itself is not carried away by anything else. */
  lemma BaseObjectStays(cur: Option<Obj>, r: ObjKey, ops: seq<ChangeOp>)
    requires r.AclKey? || r.ProcessKey?
    requires forall i :: 0 <= i < |ops| ==> EffectOf(ops[i]) != Del(r)
    requires cur.Some? ==> IsBase(cur.value)
    requires cur.Some? || SetIn(ops, r)
    ensures Fate(cur, r, ops).Some?
  {
    if SetIn(ops, r) {
      var i := LastSet(ops, r);
      FateAfterLastSet(cur, r, ops, i);
      var tail := ops[i + 1..];
      forall j | 0 <= j < |tail| ensures !Removes(tail[j], r, EffectOf(ops[i]).obj) {
        assert tail[j] == ops[i + 1 + j];
      }
    } else {
      FateWithoutSets(cur, r, ops);
    }
  }

  /** When the plan comes to its last stage, an object that was there or is written is in place. */
  lemma NamedIsThere(ops: seq<ChangeOp>, cur: Option<Obj>, r: ObjKey, n: nat)
    requires r.AclKey? || r.ProcessKey?
    requires !Has(ops, Del(r)) && (cur.Some? ==> IsBase(cur.value)) && (cur.Some? || SetIn(ops, r))
    requires n < |Staged(ops)| && KindOf(Staged(ops)[n]) == BindReferences
    ensures Fate(cur, r, Staged(ops)[..n]).Some?
  {
    var st := Staged(ops);
    var head := st[..n];
    StagedIsPermutation(ops);
    forall i | 0 <= i < |head| ensures EffectOf(head[i]) != Del(r) {
      assert head[i] == st[i] && st[i] in ops;
    }
    if cur.None? {
      SameMembers(ops, r);
      var j :| 0 <= j < |st| && Sets(st[j], r);
      StagedIsInPlace(ops);
      assert Place(KindOf(st[j])) < Place(KindOf(st[n]));
      assert Sets(head[j], r);
    }
    BaseObjectStays(cur, r, head);
  }

  lemma NamedIsKept(refs: References, d: Desired, c: Shadow, o: Obj)
    requires CanonicalDesired(d) && NamesKept(refs, d) && NamesExist(refs, d, c)
    requires Has(DiffOps(d, c), Put(o)) && Names(refs, o).Some?
    ensures var r := Names(refs, o).value;
            !Has(DiffOps(d, c), Del(r)) && (Look(c, r).Some? || SetIn(DiffOps(d, c), r))
  {
    var r := Names(refs, o).value;
    DiffWrites(d, c, o);
    DiffRemoves(d, c, r);
    if Look(c, r).None? {
      WantedIsKeyed(d, r);
      DiffWrites(d, c, Wanted(d, r).value);
      var i :| 0 <= i < |DiffOps(d, c)| && EffectOf(DiffOps(d, c)[i]) == Put(Wanted(d, r).value);
      assert Sets(DiffOps(d, c)[i], r);
    }
  }

  lemma StagedHas(ops: seq<ChangeOp>, n: nat)
    requires n < |Staged(ops)|
    ensures Has(ops, EffectOf(Staged(ops)[n]))
  {
    StagedIsPermutation(ops);
    assert Staged(ops)[n] in ops;
  }

  lemma NamerIsLast(refs: References, op: ChangeOp)
    requires EffectOf(op).Put? && Names(refs, EffectOf(op).obj).Some?
    ensures KindOf(op) == BindReferences
    ensures var r := Names(refs, EffectOf(op).obj).value; r.AclKey? || r.ProcessKey?
  {
  }

  /** The plan writes a reference only when what it names is there. */
  lemma StagedIsReady(refs: References, d: Desired, c: Shadow, n: nat)
    requires CanonicalDesired(d) && NamesKept(refs, d) && NamesExist(refs, d, c) && n < |Staged(DiffOps(d, c))|
    ensures Ready(refs, Applied(c, Staged(DiffOps(d, c))[..n]), Staged(DiffOps(d, c))[n])
  {
    var ops := DiffOps(d, c);
    var op := Staged(ops)[n];
    if EffectOf(op).Put? && Names(refs, EffectOf(op).obj).Some? {
      StagedHas(ops, n);
      NamedIsKept(refs, d, c, EffectOf(op).obj);
      NamerIsLast(refs, op);
      NamedIsInPlace(ops, c, Names(refs, EffectOf(op).obj).value, n);
    }
  }

  lemma NamedIsInPlace(ops: seq<ChangeOp>, c: Shadow, r: ObjKey, n: nat)
    requires (r.AclKey? || r.ProcessKey?) && !Has(ops, Del(r)) && (Look(c, r).Some? || SetIn(ops, r))
    requires n < |Staged(ops)| && KindOf(Staged(ops)[n]) == BindReferences
    ensures Look(Applied(c, Staged(ops)[..n]), r).Some?
  {
    NamedIsThere(ops, Look(c, r), r, n);
    AppliedActsOnEachObject(c, Staged(ops)[..n], r);
  }

  /** Running the plan step by step from a state without dangling references never leaves one, when every
      wanted object names an object that is wanted or there, and that is not asked to go. */
  lemma {:induction false} PlanKeepsSupport(refs: References, d: Desired, c: Shadow, n: nat)
    requires CanonicalDesired(d) && NamesKept(refs, d) && NamesExist(refs, d, c) && Supported(refs, c) && n <= |Staged(DiffOps(d, c))|
    ensures Supported(refs, Applied(c, Staged(DiffOps(d, c))[..n]))
  {
    var st := Staged(DiffOps(d, c));
    if n > 0 {
      var m := n - 1;
      PlanKeepsSupport(refs, d, c, m);
      StagedIsReady(refs, d, c, m);
      OpKeepsSupport(refs, Applied(c, st[..m]), st[m]);
      assert st[..n][..m] == st[..m];
    }
  }

  lemma SeparateKeepsNames(refs: References, d: Desired)
    requires Separate(d)
    ensures NamesKept(refs, d)
  {
    forall k | Wanted(d, k).Some? && Names(refs, Wanted(d, k).value).Some?
      ensures !Dropped(d, Names(refs, Wanted(d, k).value).value)
    {
      assert SeparateAt(d, k) && Carries(Names(refs, Wanted(d, k).value).value, Wanted(d, k).value);
    }
  }

  lemma EndNeedsNames(refs: References, d: Desired, c: Shadow, k: ObjKey)
    requires CanonicalDesired(d) && Separate(d) && Supported(refs, Applied(c, DiffOps(d, c)))
    requires Wanted(d, k).Some? && Names(refs, Wanted(d, k).value).Some?
    ensures Wanted(d, Names(refs, Wanted(d, k).value).value).Some? || Look(c, Names(refs, Wanted(d, k).value).value).Some?
  {
    var after := Applied(c, DiffOps(d, c));
    var r := Names(refs, Wanted(d, k).value).value;
    SettlesAt(d, c, k);
    AppliedActsOnEachObject(c, DiffOps(d, c), k);
    assert SupportedAt(refs, after, k);
    if Wanted(d, r).None? {
      UnwantedObjectsStayUnlessAsked(d, c, r);
    }
  }

  /** From a state without dangling references, no step of the plan leaves one exactly when every wanted
      object names an object that is wanted or already there. */
  lemma NoStepDanglesExactlyWhenNamesExist(refs: References, desired: Desired, current: Shadow)
    requires Separate(NormalDesired(desired)) && Supported(refs, NormalShadow(current))
    ensures var c := NormalShadow(current);
            var plan := Staged(ChangeSet(desired, current));
            NamesExist(refs, NormalDesired(desired), c) <==>
            forall n :: 0 <= n <= |plan| ==> Supported(refs, Applied(c, plan[..n]))
  {
    var d := NormalDesired(desired);
    var c := NormalShadow(current);
    var plan := Staged(ChangeSet(desired, current));
    NormalDesiredIsCanonical(desired);
    SeparateKeepsNames(refs, d);
    if NamesExist(refs, d, c) {
      forall n | 0 <= n <= |plan| ensures Supported(refs, Applied(c, plan[..n])) {
        PlanKeepsSupport(refs, d, c, n);
      }
    }
    if forall n :: 0 <= n <= |plan| ==> Supported(refs, Applied(c, plan[..n])) {
      assert plan[..|plan|] == plan;
      assert Supported(refs, Applied(c, plan));
      EndIsSame(refs, desired, current);
      forall k | Wanted(d, k).Some? && Names(refs, Wanted(d, k).value).Some?
        ensures Wanted(d, Names(refs, Wanted(d, k).value).value).Some? || Look(c, Names(refs, Wanted(d, k).value).value).Some?
      {
        EndNeedsNames(refs, d, c, k);
      }
    }
  }

  lemma EndIsSame(refs: References, desired: Desired, current: Shadow)
    requires Separate(NormalDesired(desired))
    requires Supported(refs, Applied(NormalShadow(current), Staged(ChangeSet(desired, current))))
    ensures Supported(refs, Applied(NormalShadow(current), ChangeSet(desired, current)))
  {
    var c := NormalShadow(current);
    var ops := ChangeSet(desired, current);
    SeparateIsConflictFree(desired, current);
    PlanMeansChangeSetExactlyWhenConflictFree(desired, current, c);
    var s, t := Applied(c, Staged(ops)), Applied(c, ops);
    LookDetermines(s, t);
    forall k ensures SupportedAt(refs, t, k) {
      assert SupportedAt(refs, s, k) && Look(s, k) == Look(t, k);
      if Look(t, k).Some? && Names(refs, Look(t, k).value).Some? {
        assert Look(s, Names(refs, Look(t, k).value).value) == Look(t, Names(refs, Look(t, k).value).value);
      }
    }
  }
}
