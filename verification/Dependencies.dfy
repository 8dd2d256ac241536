/** The dependency edges of a plan: what they name, that they are the dependencies between its operations, and
    that the order of the plan keeps them. */
module Dependencies {
  import opened Wrappers
  import opened Text
  import opened ConfigModel
  import opened Objects
  import opened ChangePlan

  /** What an edge names: an object, the removal of an object, or a summary without an operation of its own. */
  datatype Node =
    | AclNode(aclId: u16)
    | AclDelete(aclId: u16)
    | BindingNode(interfaceName: string, direction: AclDirection, aclId: u16)
    | Unbind(interfaceName: string, direction: AclDirection, aclId: u16)
    | AllUnbound(aclId: u16)
    | ProcessNode(vrf: string)
    | ProcessDelete(vrf: string)
    | NeighborNode(vrf: string, address: string)
    | NeighborDelete(vrf: string, address: string)
    | AllNeighborsRemoved(vrf: string)
    | PolicyNode(policy: string)

  datatype Edge = Edge(late: Node, early: Node)

  /** The operation is the one a node names. */
  predicate Stands(op: ChangeOp, node: Node) {
    match op
    case CreateAcl(a) => node == AclNode(a.aclId)
    case UpdateAcl(_, a) => node == AclNode(a.aclId)
    case DeleteAcl(id) => node == AclDelete(id)
    case CreateBinding(b) => node == BindingNode(b.interfaceName, b.direction, b.aclId)
    case UpdateBinding(_, b) => node == BindingNode(b.interfaceName, b.direction, b.aclId)
    case DeleteBinding(n, dir, acl) => node == Unbind(n, dir, acl)
    case CreateProcess(p) => node == ProcessNode(p.vrf)
    case UpdateProcess(_, p) => node == ProcessNode(p.vrf)
    case DeleteProcess(v) => node == ProcessDelete(v)
    case CreateNeighbor(n) => node == NeighborNode(n.vrf, n.address)
    case UpdateNeighbor(_, n) => node == NeighborNode(n.vrf, n.address)
    case DeleteNeighbor(v, a) => node == NeighborDelete(v, a)
    case _ => false
  }

  function UnbindEdge(acl: u16, op: ChangeOp): Option<Edge> {
    if op.DeleteBinding? && op.boundAcl == acl then Some(Edge(AclDelete(acl), Unbind(op.interfaceName, op.direction, acl)))
    else None
  }

  function PeerEdge(vrf: string, op: ChangeOp): Option<Edge> {
    if op.DeleteNeighbor? && op.neighborVrf == vrf then Some(Edge(ProcessDelete(vrf), NeighborDelete(vrf, op.address)))
    else None
  }

  function Picked(ops: seq<ChangeOp>, pick: ChangeOp -> Option<Edge>): seq<Edge> {
    if ops == [] then []
    else
      var n := |ops| - 1;
      var rest := Picked(ops[..n], pick);
      if pick(ops[n]).Some? then rest + [pick(ops[n]).value] else rest
  }

  function PolicyEdges(n: BgpNeighbor, policy: Option<string>): seq<Edge> {
    if policy.Some? && Trim(policy.value) != "" then [Edge(NeighborNode(n.vrf, n.address), PolicyNode(Trim(policy.value)))] else []
  }

  function PeerEdges(n: BgpNeighbor): seq<Edge> {
    [Edge(NeighborNode(n.vrf, n.address), ProcessNode(n.vrf))] + PolicyEdges(n, n.importPolicy) + PolicyEdges(n, n.exportPolicy)
  }

  function BindEdges(b: AclBinding): seq<Edge> {
    [Edge(BindingNode(b.interfaceName, b.direction, b.aclId), AclNode(b.aclId))]
  }

  /** What one operation contributes, in sight of all of them. */
  function EdgesOf(all: seq<ChangeOp>, op: ChangeOp): seq<Edge> {
    match op
    case CreateBinding(b) => BindEdges(b)
    case UpdateBinding(_, b) => BindEdges(b)
    case DeleteAcl(id) =>
      var unbinds := Picked(all, o => UnbindEdge(id, o));
      if unbinds == [] then [Edge(AclDelete(id), AllUnbound(id))] else unbinds
    case CreateNeighbor(n) => PeerEdges(n)
    case UpdateNeighbor(_, n) => PeerEdges(n)
    case DeleteProcess(v) =>
      var removals := Picked(all, o => PeerEdge(v, o));
      if removals == [] then [Edge(ProcessDelete(v), AllNeighborsRemoved(v))] else removals
    case _ => []
  }

  lemma {:induction false} PickedHolds(ops: seq<ChangeOp>, pick: ChangeOp -> Option<Edge>, e: Edge)
    ensures e in Picked(ops, pick) <==> exists op :: op in ops && pick(op) == Some(e)
  {
    if ops != [] {
      var n := |ops| - 1;
      PickedHolds(ops[..n], pick, e);
      assert ops == ops[..n] + [ops[n]];
    }
  }

  method Pick(ops: seq<ChangeOp>, pick: ChangeOp -> Option<Edge>) returns (edges: seq<Edge>)
    ensures edges == Picked(ops, pick)
  {
    edges := [];
    for i := 0 to |ops|
      invariant edges == Picked(ops[..i], pick)
    {
      assert ops[..i + 1][..i] == ops[..i];
      if pick(ops[i]).Some? {
        edges := edges + [pick(ops[i]).value];
      }
    }
    assert ops[..|ops|] == ops;
  }

  lemma EdgeIsDependency(all: seq<ChangeOp>, op: ChangeOp, e: Edge, late: ChangeOp, early: ChangeOp)
    requires e in EdgesOf(all, op) && Stands(late, e.late) && Stands(early, e.early)
    ensures ReliesOn(late, early)
  {
    if op.DeleteAcl? {
      PickedHolds(all, o => UnbindEdge(op.aclId, o), e);
    } else if op.DeleteProcess? {
      PickedHolds(all, o => PeerEdge(op.vrf, o), e);
    }
  }

  lemma DependencyHasEdge(all: seq<ChangeOp>, late: ChangeOp, early: ChangeOp) returns (e: Edge)
    requires early in all && ReliesOn(late, early)
    ensures e in EdgesOf(all, late) && Stands(late, e.late) && Stands(early, e.early)
  {
    if late.DeleteAcl? {
      e := UnbindEdge(late.aclId, early).value;
      PickedHolds(all, o => UnbindEdge(late.aclId, o), e);
    } else if late.DeleteProcess? {
      e := PeerEdge(late.vrf, early).value;
      PickedHolds(all, o => PeerEdge(late.vrf, o), e);
    } else {
      e := EdgesOf(all, late)[0];
    }
  }

  function Joined<T>(parts: seq<seq<T>>): seq<T> {
    if parts == [] then []
    else
      var n := |parts| - 1;
      Joined(parts[..n]) + parts[n]
  }

  lemma {:induction false} JoinedHolds<T>(parts: seq<seq<T>>, x: T)
    ensures x in Joined(parts) <==> exists i :: 0 <= i < |parts| && x in parts[i]
  {
    if parts != [] {
      var n := |parts| - 1;
      JoinedHolds(parts[..n], x);
      assert forall i :: 0 <= i < n ==> parts[..n][i] == parts[i];
    }
  }

  function Parts(ops: seq<ChangeOp>): seq<seq<Edge>> {
    seq(|ops|, i requires 0 <= i < |ops| => EdgesOf(ops, ops[i]))
  }

  /** The edges of the operations, one after the other. */
  function Edges(ops: seq<ChangeOp>): seq<Edge> { Joined(Parts(ops)) }

  lemma EdgesHold(ops: seq<ChangeOp>, e: Edge)
    ensures e in Edges(ops) <==> exists i :: 0 <= i < |ops| && e in EdgesOf(ops, ops[i])
  {
    var parts := Parts(ops);
    JoinedHolds(parts, e);
    assert forall i :: 0 <= i < |ops| ==> parts[i] == EdgesOf(ops, ops[i]);
  }

  /** Two operations of a change set are joined by an edge exactly when the one relies on the other. */
  lemma EdgesAreTheDependencies(ops: seq<ChangeOp>, late: ChangeOp, early: ChangeOp)
    requires late in ops && early in ops
    ensures ReliesOn(late, early) <==> exists e :: e in Edges(ops) && Stands(late, e.late) && Stands(early, e.early)
  {
    if ReliesOn(late, early) {
      var e := DependencyHasEdge(ops, late, early);
      var i :| 0 <= i < |ops| && ops[i] == late;
      EdgesHold(ops, e);
    }
    if e :| e in Edges(ops) && Stands(late, e.late) && Stands(early, e.early) {
      EdgesHold(ops, e);
      var i :| 0 <= i < |ops| && e in EdgesOf(ops, ops[i]);
      EdgeIsDependency(ops, ops[i], e, late, early);
    }
  }

  /** Along every edge the plan has the earlier operation first. */
  lemma PlanKeepsEdges(ops: seq<ChangeOp>, e: Edge, i: nat, j: nat)
    requires e in Edges(ops) && i < |Staged(ops)| && j < |Staged(ops)|
    requires Stands(Staged(ops)[i], e.late) && Stands(Staged(ops)[j], e.early)
    ensures j < i
  {
    EdgesHold(ops, e);
    var n :| 0 <= n < |ops| && e in EdgesOf(ops, ops[n]);
    EdgeIsDependency(ops, ops[n], e, Staged(ops)[i], Staged(ops)[j]);
    StagedKeepsDependencies(ops, i, j);
  }

  lemma {:induction false} PickedIsEmpty(ops: seq<ChangeOp>, pick: ChangeOp -> Option<Edge>)
    ensures Picked(ops, pick) == [] <==> forall op :: op in ops ==> pick(op).None?
  {
    if ops != [] {
      var n := |ops| - 1;
      PickedIsEmpty(ops[..n], pick);
      assert ops == ops[..n] + [ops[n]];
    }
  }

  lemma UnboundEdgeOf(ops: seq<ChangeOp>, acl: u16, from: ChangeOp)
    ensures Edge(AclDelete(acl), AllUnbound(acl)) in EdgesOf(ops, from)
       <==> from == DeleteAcl(acl) && forall op :: op in ops ==> UnbindEdge(acl, op).None?
  {
    var e := Edge(AclDelete(acl), AllUnbound(acl));
    if from.DeleteAcl? {
      PickedHolds(ops, o => UnbindEdge(from.aclId, o), e);
      PickedIsEmpty(ops, o => UnbindEdge(from.aclId, o));
    } else if from.DeleteProcess? {
      PickedHolds(ops, o => PeerEdge(from.vrf, o), e);
    }
  }

  lemma RemovedEdgeOf(ops: seq<ChangeOp>, vrf: string, from: ChangeOp)
    ensures Edge(ProcessDelete(vrf), AllNeighborsRemoved(vrf)) in EdgesOf(ops, from)
       <==> from == DeleteProcess(vrf) && forall op :: op in ops ==> PeerEdge(vrf, op).None?
  {
    var e := Edge(ProcessDelete(vrf), AllNeighborsRemoved(vrf));
    if from.DeleteProcess? {
      PickedHolds(ops, o => PeerEdge(from.vrf, o), e);
      PickedIsEmpty(ops, o => PeerEdge(from.vrf, o));
    } else if from.DeleteAcl? {
      PickedHolds(ops, o => UnbindEdge(from.aclId, o), e);
    }
  }

  /** A summary node appears exactly where there is nothing to sum up: an ACL or a process is removed, and no
      operation removes a binding of it or a neighbour in it. */
  lemma SummariesStandForNothing(ops: seq<ChangeOp>, acl: u16, vrf: string)
    ensures Edge(AclDelete(acl), AllUnbound(acl)) in Edges(ops) <==>
            DeleteAcl(acl) in ops && forall op :: op in ops ==> !(op.DeleteBinding? && op.boundAcl == acl)
    ensures Edge(ProcessDelete(vrf), AllNeighborsRemoved(vrf)) in Edges(ops) <==>
            DeleteProcess(vrf) in ops && forall op :: op in ops ==> !(op.DeleteNeighbor? && op.neighborVrf == vrf)
  {
    EdgesHold(ops, Edge(AclDelete(acl), AllUnbound(acl)));
    EdgesHold(ops, Edge(ProcessDelete(vrf), AllNeighborsRemoved(vrf)));
    forall from ensures Edge(AclDelete(acl), AllUnbound(acl)) in EdgesOf(ops, from)
                   <==> from == DeleteAcl(acl) && forall op :: op in ops ==> UnbindEdge(acl, op).None?
    {
      UnboundEdgeOf(ops, acl, from);
    }
    forall from ensures Edge(ProcessDelete(vrf), AllNeighborsRemoved(vrf)) in EdgesOf(ops, from)
                   <==> from == DeleteProcess(vrf) && forall op :: op in ops ==> PeerEdge(vrf, op).None?
    {
      RemovedEdgeOf(ops, vrf, from);
    }
  }

  /** The neighbour an operation makes or changes. */
  function PeerOf(op: ChangeOp): Option<BgpNeighbor> {
    match op
    case CreateNeighbor(n) => Some(n)
    case UpdateNeighbor(_, n) => Some(n)
    case _ => None
  }

  predicate UsesPolicy(n: BgpNeighbor, policy: string) {
    && policy != ""
    && (|| (n.importPolicy.Some? && Trim(n.importPolicy.value) == policy)
        || (n.exportPolicy.Some? && Trim(n.exportPolicy.value) == policy))
  }

  lemma PolicyEdgeOf(ops: seq<ChangeOp>, from: ChangeOp, v: string, a: string, policy: string)
    ensures Edge(NeighborNode(v, a), PolicyNode(policy)) in EdgesOf(ops, from)
       <==> PeerOf(from).Some? && PeerOf(from).value.vrf == v && PeerOf(from).value.address == a && UsesPolicy(PeerOf(from).value, policy)
  {
    var e := Edge(NeighborNode(v, a), PolicyNode(policy));
    if from.DeleteProcess? {
      PickedHolds(ops, o => PeerEdge(from.vrf, o), e);
    } else if from.DeleteAcl? {
      PickedHolds(ops, o => UnbindEdge(from.aclId, o), e);
    }
  }

  /** A neighbour has an edge to a route policy exactly when an operation makes or changes it and it imports or
      exports by that policy, up to space around the name. */
  lemma PolicyEdgesExactly(ops: seq<ChangeOp>, v: string, a: string, policy: string)
    ensures Edge(NeighborNode(v, a), PolicyNode(policy)) in Edges(ops) <==>
            exists op :: && op in ops && PeerOf(op).Some? && PeerOf(op).value.vrf == v && PeerOf(op).value.address == a
                         && UsesPolicy(PeerOf(op).value, policy)
  {
    EdgesHold(ops, Edge(NeighborNode(v, a), PolicyNode(policy)));
    forall op ensures Edge(NeighborNode(v, a), PolicyNode(policy)) in EdgesOf(ops, op)
                 <==> PeerOf(op).Some? && PeerOf(op).value.vrf == v && PeerOf(op).value.address == a && UsesPolicy(PeerOf(op).value, policy)
    {
      PolicyEdgeOf(ops, op, v, a, policy);
    }
  }

  /** The edges of one operation as they are built. */
  method EdgesFor(ops: seq<ChangeOp>, op: ChangeOp) returns (edges: seq<Edge>)
    ensures edges == EdgesOf(ops, op)
  {
    match op {
      case CreateBinding(b) => edges := BindEdges(b);
      case UpdateBinding(_, b) => edges := BindEdges(b);
      case DeleteAcl(id) =>
        edges := Pick(ops, o => UnbindEdge(id, o));
        if edges == [] {
          edges := [Edge(AclDelete(id), AllUnbound(id))];
        }
      case CreateNeighbor(n) => edges := PeerEdges(n);
      case UpdateNeighbor(_, n) => edges := PeerEdges(n);
      case DeleteProcess(v) =>
        edges := Pick(ops, o => PeerEdge(v, o));
        if edges == [] {
          edges := [Edge(ProcessDelete(v), AllNeighborsRemoved(v))];
        }
      case _ => edges := [];
    }
  }

  /** The edge list. Two operations are joined by an edge exactly when the one relies on the other, and every
      edge between operations is kept by the order of the plan. */
  method DependencyEdges(ops: seq<ChangeOp>) returns (edges: seq<Edge>)
    ensures edges == Edges(ops)
  {
    edges := [];
    ghost var parts := Parts(ops);
    for i := 0 to |ops|
      invariant edges == Joined(parts[..i])
    {
      assert parts[..i + 1][..i] == parts[..i];
      var more := EdgesFor(ops, ops[i]);
      edges := edges + more;
    }
    assert parts[..|ops|] == parts;
  }
}
