/** Valid requests that show where a promise fails. */
module Exceptions {
  import opened Wrappers
  import Ordering
  import Text
  import opened ConfigModel
  import opened Normalize
  import opened Objects
  import opened Intents
  import opened Diff
  import opened DiffContents
  import opened Convergence
  import opened ChangePlan
  import opened DomainPlan
  import opened PlannedStates
  import opened Clashes
  import opened Conflicts
  import opened Spellings
  import opened PortSpellings

  /** One switch; one interface is wanted and another name dropped. */
  function OnePort(p: InterfaceConfig, drop: string): Intent {
    PortRequest([Member("m", "sw")], On("m", p), On("m", drop))
  }

  function Port(name: string, state: AdminState): InterfaceConfig {
    InterfaceConfig(name, state, None, Access(10))
  }

  lemma OnePortIsValid(p: InterfaceConfig, drop: string)
    requires p.mode == Access(10) && NotBlank(p.name) && NotBlank(drop) && p.name != drop
    ensures Valid(OnePort(p, drop))
  {
    var members := [Member("m", "sw")];
    assert Member("m", "sw") in members;
    PortRequestIsValid(members, On("m", p), On("m", drop));
  }

  lemma OnePortPlanned(p: InterfaceConfig, drop: string)
    ensures StateFor(OnePort(p, drop), "sw").interfaces == map[p.name := p]
    ensures StateFor(OnePort(p, drop), "sw").deleteInterfaces == {drop}
    ensures StateFor(OnePort(p, drop), "sw").deleteBindings == map[]
  {
    var i := OnePort(p, drop);
    assert i.members[..0] == [] && i.interfaces[..0] == [] && i.deleteInterfaces[..0] == [];
    var routes := Routes(i.members);
    assert RoutedTo(routes, "m", "sw");
    assert Gathered(i.interfaces[..0], routes, "sw", InterfaceKeyOf, Same<InterfaceConfig>) == map[];
    assert Gathered(i.interfaces, routes, "sw", InterfaceKeyOf, Same<InterfaceConfig>) == map[InterfaceKeyOf(p) := p];
  }

  lemma OneNormalPort(p: InterfaceConfig)
    ensures CanonicalName(p.name) in NormalInterfaces(map[p.name := p])
    ensures NormalInterfaces(map[p.name := p])[CanonicalName(p.name)] == NormalInterface(p)
  {
    var m := map[p.name := p];
    InterfaceIsThere(m, p.name);
    var src := LastInterface(m, CanonicalName(p.name));
  }

  // ---- A plan that means something else than its change set ----

  lemma ClashIsUnsafe(d: Desired)
    requires !Separate(d) && d.deleteBindings == map[]
    ensures !Safe(d)
  {
    var k :| !SeparateAt(d, k);
    assert !SafeAt(d, k);
  }

  /** A valid request, and a state of its endpoint, from which the plan keeps an interface that the change set
      removes. */
  lemma ValidRequestCanConflict() returns (current: Shadow)
    ensures var i := OnePort(Port("GigabitEthernet1", Up), "GE1");
            Valid(i) && !ConflictFree(ChangeSet(StateFor(i, "sw"), current)) && forall base :: !PlanAgrees(StateFor(i, "sw"), current, base)
  {
    var i := OnePort(Port("GigabitEthernet1", Up), "GE1");
    ValidRequestsCanClash();
    OnePortPlanned(Port("GigabitEthernet1", Up), "GE1");
    var d := StateFor(i, "sw");
    NoBindings(d);
    ClashIsUnsafe(NormalDesired(d));
    current := UnsafePlanDiffers(d);
    assert !PlanAgrees(d, current, current);
    PlanMeansChangeSetExactlyWhenConflictFree(d, current, current);
  }

  lemma NoBindings(d: Desired)
    requires d.deleteBindings == map[]
    ensures NormalDesired(d).deleteBindings == map[]
  {
  }

  // ---- A new interface that is restored ----

  lemma OnePortWanted(p: InterfaceConfig, drop: string)
    ensures Wanted(NormalDesired(StateFor(OnePort(p, drop), "sw")), InterfaceKey(CanonicalName(p.name)))
         == Some(InterfaceObj(NormalInterface(p)))
  {
    OnePortPlanned(p, drop);
    OneNormalPort(p);
  }

  /** The interface of a valid request is new to an empty switch, and still its rollback step restores it. */
  lemma NewInterfaceIsRestored(p: InterfaceConfig, drop: string) returns (op: ChangeOp)
    requires p.mode == Access(10) && NotBlank(p.name) && NotBlank(drop) && p.name != drop
    ensures Valid(OnePort(p, drop)) && op in ChangeSet(StateFor(OnePort(p, drop), "sw"), EmptyShadow("sw"))
    ensures TargetOf(op) == InterfaceKey(CanonicalName(p.name)) && Look(EmptyShadow("sw"), TargetOf(op)).None?
    ensures RollbackOf(op) == Restore(TargetOf(op), None)
  {
    var d := StateFor(OnePort(p, drop), "sw");
    OnePortIsValid(p, drop);
    OnePortWanted(p, drop);
    NormalShadowIsCanonical(EmptyShadow("sw"));
    NormalDesiredIsCanonical(d);
    op := NewInterfaceOp(NormalDesired(d), EmptyShadow("sw"), InterfaceObj(NormalInterface(p)));
  }

  lemma OtherNames()
    ensures CanonicalName("GE1") == "GE1" && NotBlank("GE1") && NotBlank("GE2") && "GE1" != "GE2"
  {
    Text.TrimmedStays("GE1");
    Text.TrimmedStays("GE2");
    assert "GE2"[2] == '2';
  }

  lemma InterfaceIsRestored(op: ChangeOp, o: Obj)
    requires o.InterfaceObj? && EffectOf(op) == Put(o)
    ensures TargetOf(op) == KeyOf(o) && RollbackOf(op) == Restore(KeyOf(o), None)
  {
  }

  lemma NewInterfaceOp(d: Desired, c: Shadow, o: Obj) returns (op: ChangeOp)
    requires CanonicalDesired(d) && o.InterfaceObj? && Wanted(d, KeyOf(o)) == Some(o) && Look(c, KeyOf(o)).None?
    ensures op in DiffOps(d, c) && TargetOf(op) == KeyOf(o) && RollbackOf(op) == Restore(KeyOf(o), None)
  {
    DiffWrites(d, c, o);
    var ops := DiffOps(d, c);
    var i :| 0 <= i < |ops| && EffectOf(ops[i]) == Put(o);
    op := ops[i];
    InterfaceIsRestored(op, o);
  }

  // ---- A record that another spelling overrules ----

  /** What recovery records for a transaction without a stored change set. */
  function Record(p: InterfaceConfig, drop: string): Shadow {
    ShadowFrom(StateFor(OnePort(p, drop), "sw"))
  }

  lemma PlannedRecordIsKeyed(i: Intent, e: string)
    ensures Keyed(ShadowFrom(StateFor(i, e)))
  {
    PlannedIsKeyed(i, e);
  }

  lemma OnePortRecord(p: InterfaceConfig, drop: string)
    ensures var s := Record(p, drop);
            && Keyed(s) && s.interfaces == map[p.name := p]
            && Look(NormalShadow(s), InterfaceKey(CanonicalName(p.name))) == Some(InterfaceObj(NormalInterface(p)))
  {
    PlannedRecordIsKeyed(OnePort(p, drop), "sw");
    OnePortPlanned(p, drop);
    OneNormalPort(p);
  }

  lemma LongNames()
    ensures CanonicalName("GigabitEthernet1") == "GE1" && NotBlank("GigabitEthernet1")
    ensures "GigabitEthernet1" != "GE1" && "GigabitEthernet1" != "GE2" && Ordering.StringLe("GE1", "GigabitEthernet1")
  {
    ShortNames();
    OtherNames();
    assert "GigabitEthernet1"[1] != "GE1"[1] && "GigabitEthernet1"[1] != "GE2"[1];
    assert "GE1"[1..][0] < "GigabitEthernet1"[1..][0];
  }

  /** The state planned for a valid request, recorded as it is, need not be canonical. */
  lemma PlannedRecordCanBeSpelledOtherwise()
    ensures Valid(OnePort(Port("GigabitEthernet1", Up), "GE2"))
    ensures var s := Record(Port("GigabitEthernet1", Up), "GE2");
            Keyed(s) && SpelledOtherwise(s, "GE1", "GigabitEthernet1") && !CanonicalShadow(s)
  {
    LongNames();
    OtherNames();
    OnePortIsValid(Port("GigabitEthernet1", Up), "GE2");
    OnePortRecord(Port("GigabitEthernet1", Up), "GE2");
    var s := Record(Port("GigabitEthernet1", Up), "GE2");
    assert NormalInterface(s.interfaces["GigabitEthernet1"]).name == "GE1";
  }

  lemma RewrittenIsShadowed(d: Desired, s: Shadow, n: string, y: string, o: Obj, x: Obj)
    requires SpelledOtherwise(s, n, y) && Ordering.StringLe(n, y)
    requires Wanted(d, InterfaceKey(n)) == Some(o) && Look(NormalShadow(s), InterfaceKey(n)) == Some(x) && x != o
    ensures Shadowed(d, s, n)
  {
    assert Rewrites(d, n, Look(NormalShadow(s), InterfaceKey(n)));
  }

  /** From that record: a valid request that changes the interface by its short name is overruled by the
      recorded long name, which comes after it. */
  lemma LaterSpellingStandsInTheWay()
    ensures Valid(OnePort(Port("GE1", Down), "GE2"))
    ensures Shadowed(NormalDesired(StateFor(OnePort(Port("GE1", Down), "GE2"), "sw")), Record(Port("GigabitEthernet1", Up), "GE2"), "GE1")
  {
    var p := Port("GE1", Down);
    LongNames();
    OtherNames();
    OnePortIsValid(p, "GE2");
    OnePortWanted(p, "GE2");
    OnePortRecord(Port("GigabitEthernet1", Up), "GE2");
    RewrittenIsShadowed(NormalDesired(StateFor(OnePort(p, "GE2"), "sw")), Record(Port("GigabitEthernet1", Up), "GE2"),
                        "GE1", "GigabitEthernet1", InterfaceObj(NormalInterface(p)), InterfaceObj(NormalInterface(Port("GigabitEthernet1", Up))));
  }

  /** And a valid request that drops the interface is overruled as well. */
  lemma AnySpellingOutlivesADrop()
    ensures Valid(OnePort(Port("GE2", Up), "GE1"))
    ensures Shadowed(NormalDesired(StateFor(OnePort(Port("GE2", Up), "GE1"), "sw")), Record(Port("GigabitEthernet1", Up), "GE2"), "GE1")
  {
    LongNames();
    OtherNames();
    OnePortIsValid(Port("GE2", Up), "GE1");
    OnePortPlanned(Port("GE2", Up), "GE1");
    OnePortRecord(Port("GigabitEthernet1", Up), "GE2");
    var d := StateFor(OnePort(Port("GE2", Up), "GE1"), "sw");
    assert "GE1" in d.deleteInterfaces && CanonicalName("GE1") in NormalDesired(d).deleteInterfaces;
    assert SpelledOtherwise(Record(Port("GigabitEthernet1", Up), "GE2"), "GE1", "GigabitEthernet1");
  }
}
