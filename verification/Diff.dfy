/** The difference between the state wanted and the state held, as a list of operations. */
module Diff {
  import opened Wrappers
  import opened Ordering
  import opened ConfigModel
  import opened Normalize
  import opened Objects

  /** The object wanted under a key. */
  function Wanted(d: Desired, k: ObjKey): Option<Obj> {
    match k
    case VlanKey(id) => if id in d.vlans then Some(VlanObj(d.vlans[id])) else None
    case InterfaceKey(n) => if n in d.interfaces then Some(InterfaceObj(d.interfaces[n])) else None
    case AclKey(id) => if id in d.acls then Some(AclObj(d.acls[id])) else None
    case BindingKey(b) => if b in d.bindings then Some(BindingObj(d.bindings[b])) else None
    case ProcessKey(v) => if v in d.processes then Some(ProcessObj(d.processes[v])) else None
    case NeighborKey(n) => if n in d.neighbors then Some(NeighborObj(d.neighbors[n])) else None
  }

  /** The object under a key is asked to go. */
  predicate Dropped(d: Desired, k: ObjKey) {
    match k
    case VlanKey(id) => id in d.deleteVlans
    case InterfaceKey(n) => n in d.deleteInterfaces
    case AclKey(id) => id in d.deleteAcls
    case BindingKey(b) => b in d.deleteBindings
    case ProcessKey(v) => v in d.deleteProcesses
    case NeighborKey(n) => n in d.deleteNeighbors
  }

  /** The object there is one the request means: a binding goes only if it binds the named ACL. */
  predicate Meant(d: Desired, k: ObjKey, o: Obj)
    requires Dropped(d, k)
  {
    k.BindingKey? ==> o.BindingObj? && o.bound.aclId == d.deleteBindings[k.binding].aclId
  }

  predicate Leaves(d: Desired, k: ObjKey, cur: Option<Obj>) {
    Dropped(d, k) && cur.Some? && Meant(d, k, cur.value)
  }

  function UpsertOp(before: Option<Obj>, after: Obj): ChangeOp {
    match after
    case VlanObj(v) =>
      if before.Some? && before.value.VlanObj? then UpdateVlan(before.value.vlan, v) else CreateVlan(v)
    case InterfaceObj(i) =>
      UpdateInterface(if before.Some? && before.value.InterfaceObj? then Some(before.value.port) else None, i)
    case AclObj(a) =>
      if before.Some? && before.value.AclObj? then UpdateAcl(before.value.acl, a) else CreateAcl(a)
    case BindingObj(b) =>
      if before.Some? && before.value.BindingObj? then UpdateBinding(before.value.bound, b) else CreateBinding(b)
    case ProcessObj(p) =>
      if before.Some? && before.value.ProcessObj? then UpdateProcess(before.value.process, p) else CreateProcess(p)
    case NeighborObj(n) =>
      if before.Some? && before.value.NeighborObj? then UpdateNeighbor(before.value.peer, n) else CreateNeighbor(n)
  }

  function DropOp(d: Desired, k: ObjKey): ChangeOp
    requires Dropped(d, k)
  {
    match k
    case VlanKey(id) => DeleteVlan(id)
    case InterfaceKey(n) => DeleteInterface(n)
    case AclKey(id) => DeleteAcl(id)
    case BindingKey(b) =>
      var gone := d.deleteBindings[b];
      DeleteBinding(gone.interfaceName, gone.direction, gone.aclId)
    case ProcessKey(v) => DeleteProcess(v)
    case NeighborKey(n) => DeleteNeighbor(d.deleteNeighbors[n].vrf, d.deleteNeighbors[n].address)
  }

  /** One look of the comparison: at a wanted object, or at a key asked to go. */
  datatype Visit = Want(key: ObjKey) | Drop(key: ObjKey)

  function Change(d: Desired, c: Shadow, v: Visit): Option<ChangeOp> {
    match v
    case Want(k) =>
      if Wanted(d, k).None? || Look(c, k) == Wanted(d, k) then None
      else Some(UpsertOp(Look(c, k), Wanted(d, k).value))
    case Drop(k) =>
      if Leaves(d, k, Look(c, k)) then Some(DropOp(d, k)) else None
  }

  function Appended(ops: seq<ChangeOp>, change: Option<ChangeOp>): seq<ChangeOp> {
    if change.Some? then ops + [change.value] else ops
  }

  /** One pass of the comparison, over the keys of one map or set. */
  function Pass<K>(d: Desired, c: Shadow, keys: seq<K>, visit: K -> Visit): seq<ChangeOp> {
    if keys == [] then []
    else
      var n := |keys| - 1;
      Appended(Pass(d, c, keys[..n], visit), Change(d, c, visit(keys[n])))
  }

  // ---- The order of the comparison ----

  function WantVlan(id: u16): Visit { Want(VlanKey(id)) }
  function DropVlan(id: u16): Visit { Drop(VlanKey(id)) }
  function WantInterface(n: string): Visit { Want(InterfaceKey(n)) }
  function DropInterface(n: string): Visit { Drop(InterfaceKey(n)) }
  function WantAcl(id: u16): Visit { Want(AclKey(id)) }
  function DropAcl(id: u16): Visit { Drop(AclKey(id)) }
  function WantBinding(b: string): Visit { Want(BindingKey(b)) }
  function DropBinding(b: string): Visit { Drop(BindingKey(b)) }
  function WantProcess(v: string): Visit { Want(ProcessKey(v)) }
  function DropProcess(v: string): Visit { Drop(ProcessKey(v)) }
  function WantNeighbor(n: string): Visit { Want(NeighborKey(n)) }
  function DropNeighbor(n: string): Visit { Drop(NeighborKey(n)) }

  ghost function U16s(s: set<u16>): (xs: seq<u16>)
    ensures Lists(U16Le, s, xs)
  {
    U16sAreOrdered();
    InOrder(U16Le, s)
  }

  method SortU16s(s: set<u16>) returns (xs: seq<u16>)
    ensures xs == U16s(s)
  {
    U16sAreOrdered();
    xs := Listed(U16Le, s);
    ListedIsUnique(U16Le, s, U16s(s));
  }

  ghost function BaseOps(d: Desired, c: Shadow): seq<ChangeOp> {
    Pass(d, c, U16s(d.vlans.Keys), WantVlan) + Pass(d, c, Strings(d.interfaces.Keys), WantInterface)
    + Pass(d, c, Strings(d.deleteInterfaces), DropInterface) + Pass(d, c, U16s(d.deleteVlans), DropVlan)
  }

  ghost function AclOps(d: Desired, c: Shadow): seq<ChangeOp> {
    Pass(d, c, U16s(d.acls.Keys), WantAcl) + Pass(d, c, Strings(d.bindings.Keys), WantBinding)
    + Pass(d, c, Strings(d.deleteBindings.Keys), DropBinding) + Pass(d, c, U16s(d.deleteAcls), DropAcl)
  }

  ghost function BgpOps(d: Desired, c: Shadow): seq<ChangeOp> {
    Pass(d, c, Strings(d.processes.Keys), WantProcess) + Pass(d, c, Strings(d.neighbors.Keys), WantNeighbor)
    + Pass(d, c, Strings(d.deleteNeighbors.Keys), DropNeighbor) + Pass(d, c, Strings(d.deleteProcesses), DropProcess)
  }

  /** The operations between two normalised states. */
  ghost function DiffOps(d: Desired, c: Shadow): seq<ChangeOp> {
    BaseOps(d, c) + AclOps(d, c) + BgpOps(d, c)
  }

  /** The change set the service computes. */
  ghost function ChangeSet(desired: Desired, current: Shadow): seq<ChangeOp> {
    DiffOps(NormalDesired(desired), NormalShadow(current))
  }
}
