/** The comparison as the service runs it: twelve passes over ordered maps and sets. */
module DiffLoops {
  import opened Wrappers
  import opened Ordering
  import opened ConfigModel
  import opened Normalize
  import opened Objects
  import opened Diff
  import R = RawStates

  /** A wanted object against the one that is there. */
  function Compared<K, V(==)>(wanted: map<K, V>, there: map<K, V>, k: K, create: V -> ChangeOp, update: (V, V) -> ChangeOp): Option<ChangeOp>
    requires k in wanted
  {
    if k !in there then Some(create(wanted[k]))
    else if there[k] != wanted[k] then Some(update(there[k], wanted[k]))
    else None
  }

  // ---- What each kind of object gives, in its own terms ----

  function PutVlan(d: Desired, c: Shadow, k: u16): (op: Option<ChangeOp>)
    requires k in d.vlans
    ensures op == Change(d, c, WantVlan(k))
  {
    Compared<u16, VlanConfig>(d.vlans, c.vlans, k, v => CreateVlan(v), (b, v) => UpdateVlan(b, v))
  }

  function PutInterface(d: Desired, c: Shadow, k: string): (op: Option<ChangeOp>)
    requires k in d.interfaces
    ensures op == Change(d, c, WantInterface(k))
  {
    Compared(d.interfaces, c.interfaces, k, v => UpdateInterface(None, v), (b, v) => UpdateInterface(Some(b), v))
  }

  function PutAcl(d: Desired, c: Shadow, k: u16): (op: Option<ChangeOp>)
    requires k in d.acls
    ensures op == Change(d, c, WantAcl(k))
  {
    Compared<u16, AclConfig>(d.acls, c.acls, k, v => CreateAcl(v), (b, v) => UpdateAcl(b, v))
  }

  function PutBinding(d: Desired, c: Shadow, k: string): (op: Option<ChangeOp>)
    requires k in d.bindings
    ensures op == Change(d, c, WantBinding(k))
  {
    Compared(d.bindings, c.bindings, k, v => CreateBinding(v), (b, v) => UpdateBinding(b, v))
  }

  function PutProcess(d: Desired, c: Shadow, k: string): (op: Option<ChangeOp>)
    requires k in d.processes
    ensures op == Change(d, c, WantProcess(k))
  {
    Compared(d.processes, c.processes, k, v => CreateProcess(v), (b, v) => UpdateProcess(b, v))
  }

  function PutNeighbor(d: Desired, c: Shadow, k: string): (op: Option<ChangeOp>)
    requires k in d.neighbors
    ensures op == Change(d, c, WantNeighbor(k))
  {
    Compared(d.neighbors, c.neighbors, k, v => CreateNeighbor(v), (b, v) => UpdateNeighbor(b, v))
  }

  function RemoveVlan(d: Desired, c: Shadow, k: u16): (op: Option<ChangeOp>)
    requires k in d.deleteVlans
    ensures op == Change(d, c, DropVlan(k))
  {
    if k in c.vlans then Some(DeleteVlan(k)) else None
  }

  function RemoveInterface(d: Desired, c: Shadow, k: string): (op: Option<ChangeOp>)
    requires k in d.deleteInterfaces
    ensures op == Change(d, c, DropInterface(k))
  {
    if k in c.interfaces then Some(DeleteInterface(k)) else None
  }

  function RemoveAcl(d: Desired, c: Shadow, k: u16): (op: Option<ChangeOp>)
    requires k in d.deleteAcls
    ensures op == Change(d, c, DropAcl(k))
  {
    if k in c.acls then Some(DeleteAcl(k)) else None
  }

  function RemoveBinding(d: Desired, c: Shadow, k: string): (op: Option<ChangeOp>)
    requires k in d.deleteBindings
    ensures op == Change(d, c, DropBinding(k))
  {
    var b := d.deleteBindings[k];
    if k in c.bindings && c.bindings[k].aclId == b.aclId then Some(DeleteBinding(b.interfaceName, b.direction, b.aclId)) else None
  }

  function RemoveProcess(d: Desired, c: Shadow, k: string): (op: Option<ChangeOp>)
    requires k in d.deleteProcesses
    ensures op == Change(d, c, DropProcess(k))
  {
    if k in c.processes then Some(DeleteProcess(k)) else None
  }

  function RemoveNeighbor(d: Desired, c: Shadow, k: string): (op: Option<ChangeOp>)
    requires k in d.deleteNeighbors
    ensures op == Change(d, c, DropNeighbor(k))
  {
    if k in c.neighbors then Some(DeleteNeighbor(d.deleteNeighbors[k].vrf, d.deleteNeighbors[k].address)) else None
  }

  /** One pass: what each key gives, in the order of the keys. */
  method Sweep<K>(ghost d: Desired, ghost c: Shadow, keys: seq<K>, ghost visit: K -> Visit, step: K --> Option<ChangeOp>)
    returns (ops: seq<ChangeOp>)
    requires forall k :: k in keys ==> step.requires(k) && step(k) == Change(d, c, visit(k))
    ensures ops == Pass(d, c, keys, visit)
  {
    ops := [];
    for i := 0 to |keys|
      invariant ops == Pass(d, c, keys[..i], visit)
    {
      assert keys[..i + 1][..i] == keys[..i];
      var op := step(keys[i]);
      if op.Some? {
        ops := ops + [op.value];
      }
    }
    assert keys[..|keys|] == keys;
  }

  method DiffBase(d: Desired, c: Shadow) returns (ops: seq<ChangeOp>)
    ensures ops == BaseOps(d, c)
  {
    var keys0 := SortU16s(d.vlans.Keys);
    var part0 := Sweep(d, c, keys0, WantVlan, k requires k in d.vlans => PutVlan(d, c, k));
    var keys1 := SortStrings(d.interfaces.Keys);
    var part1 := Sweep(d, c, keys1, WantInterface, k requires k in d.interfaces => PutInterface(d, c, k));
    var keys2 := SortStrings(d.deleteInterfaces);
    var part2 := Sweep(d, c, keys2, DropInterface, k requires k in d.deleteInterfaces => RemoveInterface(d, c, k));
    var keys3 := SortU16s(d.deleteVlans);
    var part3 := Sweep(d, c, keys3, DropVlan, k requires k in d.deleteVlans => RemoveVlan(d, c, k));
    ops := part0 + part1 + part2 + part3;
  }

  method DiffAcls(d: Desired, c: Shadow) returns (ops: seq<ChangeOp>)
    ensures ops == AclOps(d, c)
  {
    var keys0 := SortU16s(d.acls.Keys);
    var part0 := Sweep(d, c, keys0, WantAcl, k requires k in d.acls => PutAcl(d, c, k));
    var keys1 := SortStrings(d.bindings.Keys);
    var part1 := Sweep(d, c, keys1, WantBinding, k requires k in d.bindings => PutBinding(d, c, k));
    var keys2 := SortStrings(d.deleteBindings.Keys);
    var part2 := Sweep(d, c, keys2, DropBinding, k requires k in d.deleteBindings => RemoveBinding(d, c, k));
    var keys3 := SortU16s(d.deleteAcls);
    var part3 := Sweep(d, c, keys3, DropAcl, k requires k in d.deleteAcls => RemoveAcl(d, c, k));
    ops := part0 + part1 + part2 + part3;
  }

  method DiffBgp(d: Desired, c: Shadow) returns (ops: seq<ChangeOp>)
    ensures ops == BgpOps(d, c)
  {
    var keys0 := SortStrings(d.processes.Keys);
    var part0 := Sweep(d, c, keys0, WantProcess, k requires k in d.processes => PutProcess(d, c, k));
    var keys1 := SortStrings(d.neighbors.Keys);
    var part1 := Sweep(d, c, keys1, WantNeighbor, k requires k in d.neighbors => PutNeighbor(d, c, k));
    var keys2 := SortStrings(d.deleteNeighbors.Keys);
    var part2 := Sweep(d, c, keys2, DropNeighbor, k requires k in d.deleteNeighbors => RemoveNeighbor(d, c, k));
    var keys3 := SortStrings(d.deleteProcesses);
    var part3 := Sweep(d, c, keys3, DropProcess, k requires k in d.deleteProcesses => RemoveProcess(d, c, k));
    ops := part0 + part1 + part2 + part3;
  }

  /** The change set. When every object is written once, it is empty exactly when every wanted object is reported,
      the same in every field up to how it is written, and nothing reported is asked to go. */
  method ComputeDiff(desired: Desired, current: Shadow) returns (ops: seq<ChangeOp>)
    ensures ops == ChangeSet(desired, current)
    ensures R.WrittenOnce(desired, current) ==> (ops == [] <==> R.InAgreement(desired, current))
  {
    if R.WrittenOnce(desired, current) {
      R.NothingToDoExactlyInAgreement(desired, current);
    }
    var d := NormalDesired(desired);
    var c := NormalShadow(current);
    var base := DiffBase(d, c);
    var acls := DiffAcls(d, c);
    var bgp := DiffBgp(d, c);
    ops := base + acls + bgp;
  }
}
