/** Tasks taking locks: applies take their scope keys, then their idempotency cell, and then only try
    endpoints, one attempt after another; recovery and manual resolution wait for endpoints. */
module LockProtocol {
  import opened Wrappers
  import opened Ordering
  import opened Text
  import opened Journal
  import opened Locks

  type TaskId = int

  datatype Lock = Scope(name: string) | Cell(name: string) | Endpoint(name: string)

  function Level(l: Lock): nat {
    match l
    case Scope(_) => 0
    case Cell(_) => 1
    case Endpoint(_) => 2
  }

  predicate LockLe(a: Lock, b: Lock) {
    Level(a) < Level(b) || (Level(a) == Level(b) && StringLe(a.name, b.name))
  }

  lemma LocksAreOrdered()
    ensures TotalOrder(LockLe)
  {
    forall a, b ensures LockLe(a, a) && (LockLe(a, b) || LockLe(b, a)) {
      StringLeReflexive(a.name);
      StringLeConnected(a.name, b.name);
    }
    forall a, b | LockLe(a, b) && LockLe(b, a) ensures a == b {
      StringLeAntisymmetric(a.name, b.name);
    }
    forall a, b, c | LockLe(a, b) && LockLe(b, c) ensures LockLe(a, c) {
      if Level(a) == Level(b) == Level(c) { StringLeTransitive(a.name, b.name, c.name); }
    }
  }

  datatype Kind = Applying(domain: string) | Recovering

  /** `goal` lists the locks the task waits for one after the other; `got` of them are taken. `tried` are
      endpoints an apply has taken without waiting. */
  datatype Task = Task(kind: Kind, goal: seq<Lock>, got: nat, tried: set<Lock>)

  datatype System = System(held: map<Lock, TaskId>, tasks: map<TaskId, Task>)

  datatype Label =
    | StartApply(id: TaskId, request: ScopeRequest, key: Option<string>)
    | StartRecovery(id: TaskId, devices: seq<DeviceId>)
    | Take(id: TaskId)
    | Try(id: TaskId, devices: seq<DeviceId>)
    | Untry(id: TaskId)
    | NextRecord(id: TaskId, devices: seq<DeviceId>)
    | Stop(id: TaskId)
    | Crash

  function Scopes(keys: seq<string>): seq<Lock> { seq(|keys|, n requires 0 <= n < |keys| => Scope(keys[n])) }

  function DevicesInOrder(devices: seq<DeviceId>): (ds: seq<DeviceId>)
    ensures forall d :: d in ds <==> d in devices
    ensures Ascending(StringLe, ds)
  {
    StringLeTotal();
    Listed(StringLe, set d | d in devices)
  }

  function Endpoints(devices: seq<DeviceId>): seq<Lock> {
    var ds := DevicesInOrder(devices);
    seq(|ds|, n requires 0 <= n < |ds| => Endpoint(ds[n]))
  }

  function ApplyGoal(keys: seq<string>, key: Option<string>): seq<Lock> {
    Scopes(keys) + (if key.Some? then [Cell(key.value)] else [])
  }

  function Holding(t: Task): set<Lock>
    requires t.got <= |t.goal|
  {
    (set l | l in t.goal[..t.got]) + t.tried
  }

  function Freed(held: map<Lock, TaskId>, id: TaskId): map<Lock, TaskId> {
    map l | l in held && held[l] != id :: held[l]
  }

  predicate Enabled(s: System, l: Label) {
    match l
    case StartApply(id, request, _) => id !in s.tasks && ScopeKeys(request).Ok?
    case StartRecovery(id, _) => id !in s.tasks
    case Take(id) =>
      id in s.tasks && s.tasks[id].got < |s.tasks[id].goal| && s.tasks[id].goal[s.tasks[id].got] !in s.held
    case Try(id, _) =>
      id in s.tasks && s.tasks[id].kind.Applying? && s.tasks[id].got == |s.tasks[id].goal| && s.tasks[id].tried == {}
    case Untry(id) => id in s.tasks && s.tasks[id].kind.Applying?
    case NextRecord(id, _) => id in s.tasks && s.tasks[id].kind.Recovering? && s.tasks[id].got == |s.tasks[id].goal|
    case Stop(id) => id in s.tasks
    case Crash => true
  }

  function Next(s: System, l: Label): System
    requires Enabled(s, l)
  {
    match l
    case StartApply(id, request, key) =>
      s.(tasks := s.tasks[id := Task(Applying(Trim(request.domainId)), ApplyGoal(ScopeKeys(request).value, key), 0, {})])
    case StartRecovery(id, devices) => s.(tasks := s.tasks[id := Task(Recovering, Endpoints(devices), 0, {})])
    case Take(id) =>
      var t := s.tasks[id];
      System(s.held[t.goal[t.got] := id], s.tasks[id := t.(got := t.got + 1)])
    case Try(id, devices) =>
      var locks := set d | d in devices :: Endpoint(d);
      if exists x :: x in locks && x in s.held then s
      else System(s.held + (map x | x in locks :: id), s.tasks[id := s.tasks[id].(tried := locks)])
    case Untry(id) =>
      var t := s.tasks[id];
      System(s.held - t.tried, s.tasks[id := t.(tried := {})])
    case NextRecord(id, devices) => System(Freed(s.held, id), s.tasks[id := Task(Recovering, Endpoints(devices), 0, {})])
    case Stop(id) => System(Freed(s.held, id), s.tasks - {id})
    case Crash => System(map[], map[])
  }

  // ---- What every step keeps ----

  ghost predicate TaskOk(s: System, id: TaskId)
    requires id in s.tasks
  {
    var t := s.tasks[id];
    && t.got <= |t.goal| && Ascending(LockLe, t.goal)
    && (t.tried != {} ==> t.got == |t.goal|)
    && (forall l :: l in t.tried ==> l.Endpoint?)
    && (t.kind.Applying? ==> Scope("domain:" + t.kind.domain) in t.goal && forall l :: l in t.goal ==> !l.Endpoint?)
    && (forall l :: l in s.held && s.held[l] == id <==> l in Holding(t))
  }

  ghost predicate Inv(s: System) {
    && (forall id :: id in s.tasks ==> TaskOk(s, id))
    && (forall l :: l in s.held ==> s.held[l] in s.tasks)
  }

  lemma ApplyGoalIsAscending(r: ScopeRequest, key: Option<string>)
    requires ScopeKeys(r).Ok?
    ensures var goal := ApplyGoal(ScopeKeys(r).value, key);
            && Ascending(LockLe, goal) && Scope("domain:" + Trim(r.domainId)) in goal
            && forall l :: l in goal ==> !l.Endpoint?
  {
    var keys := ScopeKeys(r).value;
    ScopeHasOwnDomainOnly(r, "");
    var n :| 0 <= n < |keys| && keys[n] == "domain:" + Trim(r.domainId);
    assert ApplyGoal(keys, key)[n] == Scope("domain:" + Trim(r.domainId));
  }

  lemma EndpointsAreAscending(devices: seq<DeviceId>)
    ensures Ascending(LockLe, Endpoints(devices))
  {
  }

  lemma ScopesHold(keys: seq<string>, l: Lock)
    ensures l in Scopes(keys) <==> l.Scope? && l.name in keys
  {
    if l.Scope? && l.name in keys {
      var n :| 0 <= n < |keys| && keys[n] == l.name;
      assert Scopes(keys)[n] == l;
    }
  }

  lemma EndpointsHold(devices: seq<DeviceId>, l: Lock)
    ensures l in Endpoints(devices) <==> l.Endpoint? && l.name in devices
  {
    var ds := DevicesInOrder(devices);
    if l.Endpoint? && l.name in devices {
      var n :| 0 <= n < |ds| && ds[n] == l.name;
      assert Endpoints(devices)[n] == l;
    }
  }

  /** An apply waits for exactly its scope keys and the cell of its key, and a recovery for exactly the endpoints
      of its record. */
  lemma GoalsExactly(r: ScopeRequest, key: Option<string>, devices: seq<DeviceId>, l: Lock)
    requires ScopeKeys(r).Ok?
    ensures l in ApplyGoal(ScopeKeys(r).value, key)
       <==> (l.Scope? && IsScopeKey(r, l.name)) || (l.Cell? && key == Some(l.name))
    ensures l in Endpoints(devices) <==> l.Endpoint? && l.name in devices
  {
    ScopesHold(ScopeKeys(r).value, l);
    ScopeKeysExactly(r, l.name);
    EndpointsHold(devices, l);
  }

  /** An attempt takes the endpoints of all devices when all are free, and nothing otherwise. */
  lemma TryTakesAllOrNone(s: System, id: TaskId, devices: seq<DeviceId>, l: Lock)
    requires Enabled(s, Try(id, devices))
    ensures var t, free := Next(s, Try(id, devices)), forall d :: d in devices ==> Endpoint(d) !in s.held;
            && (l in t.held && t.held[l] == id
                <==> (l in s.held && s.held[l] == id) || (free && l.Endpoint? && l.name in devices))
            && (!free ==> t == s)
  {
    var locks := set d | d in devices :: Endpoint(d);
    assert forall d :: d in devices ==> Endpoint(d) in locks;
  }

  lemma StartKeepsInv(s: System, l: Label)
    requires Inv(s) && Enabled(s, l) && (l.StartApply? || l.StartRecovery?)
    ensures Inv(Next(s, l))
  {
    var t := Next(s, l);
    if l.StartApply? { ApplyGoalIsAscending(l.request, l.key); } else { EndpointsAreAscending(l.devices); }
    forall id | id in t.tasks ensures TaskOk(t, id) {
      if id != l.id { assert TaskOk(s, id); }
    }
  }

  lemma TakeKeepsInv(s: System, l: Label)
    requires Inv(s) && Enabled(s, l) && l.Take?
    ensures Inv(Next(s, l))
  {
    var t := Next(s, l);
    var old', new' := s.tasks[l.id], t.tasks[l.id];
    assert TaskOk(s, l.id);
    assert new'.goal[..new'.got] == old'.goal[..old'.got] + [old'.goal[old'.got]];
    forall id | id in t.tasks ensures TaskOk(t, id) {
      assert TaskOk(s, id);
    }
  }

  lemma TryKeepsInv(s: System, l: Label)
    requires Inv(s) && Enabled(s, l) && (l.Try? || l.Untry?)
    ensures Inv(Next(s, l))
  {
    var t := Next(s, l);
    assert TaskOk(s, l.id);
    forall id | id in t.tasks ensures TaskOk(t, id) {
      assert TaskOk(s, id);
      if id != l.id { KeepsApart(s, id, l.id); }
    }
  }

  /** No lock is held by two tasks. */
  lemma KeepsApart(s: System, a: TaskId, b: TaskId)
    requires Inv(s) && a in s.tasks && b in s.tasks && a != b
    ensures Holding(s.tasks[a]) !! Holding(s.tasks[b])
  {
    assert TaskOk(s, a) && TaskOk(s, b);
  }

  lemma LeaveKeepsInv(s: System, l: Label)
    requires Inv(s) && Enabled(s, l) && (l.NextRecord? || l.Stop?)
    ensures Inv(Next(s, l))
  {
    var t := Next(s, l);
    if l.NextRecord? { EndpointsAreAscending(l.devices); }
    forall id | id in t.tasks ensures TaskOk(t, id) {
      assert TaskOk(s, id);
    }
  }

  lemma StepKeepsInv(s: System, l: Label)
    requires Inv(s) && Enabled(s, l)
    ensures Inv(Next(s, l))
  {
    match l
    case StartApply(_, _, _) => StartKeepsInv(s, l);
    case StartRecovery(_, _) => StartKeepsInv(s, l);
    case Take(_) => TakeKeepsInv(s, l);
    case Try(_, _) => TryKeepsInv(s, l);
    case Untry(_) => TryKeepsInv(s, l);
    case NextRecord(_, _) => LeaveKeepsInv(s, l);
    case Stop(_) => LeaveKeepsInv(s, l);
    case Crash =>
  }

  predicate Moves(s: System, t: System, l: Label) { Enabled(s, l) && t == Next(s, l) }

  ghost predicate Run(states: seq<System>, labels: seq<Label>) {
    && |states| == |labels| + 1 && states[0] == System(map[], map[])
    && forall i {:trigger labels[i]} :: 0 <= i < |labels| ==> Moves(states[i], states[i + 1], labels[i])
  }

  lemma {:induction false} RunKeepsInv(states: seq<System>, labels: seq<Label>, n: nat)
    requires Run(states, labels) && n < |states|
    ensures Inv(states[n])
  {
    if n > 0 {
      var m := n - 1;
      RunKeepsInv(states, labels, m);
      assert Moves(states[m], states[m + 1], labels[m]);
      StepKeepsInv(states[m], labels[m]);
    }
  }

  // ---- No deadlock ----

  /** The task waits for a lock that somebody holds. */
  predicate Blocked(s: System, id: TaskId) {
    id in s.tasks && s.tasks[id].got < |s.tasks[id].goal| && s.tasks[id].goal[s.tasks[id].got] in s.held
  }

  function Awaited(s: System, id: TaskId): Lock
    requires Blocked(s, id)
  {
    s.tasks[id].goal[s.tasks[id].got]
  }

  /** A waiting task holds only locks that come before the one it waits for. */
  lemma WaitsUpwards(s: System, id: TaskId, l: Lock)
    requires Inv(s) && Blocked(s, id) && l in s.held && s.held[l] == id
    ensures LockLe(l, Awaited(s, id)) && l != Awaited(s, id)
  {
    assert TaskOk(s, id);
    var t := s.tasks[id];
    assert l in t.goal[..t.got];
    var n :| 0 <= n < t.got && t.goal[..t.got][n] == l;
    assert t.goal[n] == l;
  }

  lemma OneOf<T>(s: set<T>) returns (x: T)
    requires s != {}
    ensures x in s
  {
    x :| x in s;
  }

  /** Among blocked tasks, one waits for the highest lock. */
  lemma {:induction false} HighestWait(s: System, waiting: set<TaskId>) returns (top: TaskId)
    requires waiting != {} && forall id :: id in waiting ==> Blocked(s, id)
    ensures top in waiting && forall id :: id in waiting ==> LockLe(Awaited(s, id), Awaited(s, top))
  {
    LocksAreOrdered();
    var x := OneOf(waiting);
    var rest := waiting - {x};
    assert forall y :: y in waiting ==> y == x || y in rest;
    if rest == {} {
      top := x;
    } else {
      var y := HighestWait(s, rest);
      top := if LockLe(Awaited(s, x), Awaited(s, y)) then y else x;
    }
  }

  /** No group of tasks ever waits only for each other. */
  lemma NoDeadlock(states: seq<System>, labels: seq<Label>, n: nat, waiting: set<TaskId>)
    requires Run(states, labels) && n < |states| && waiting != {}
    requires forall id :: id in waiting ==> Blocked(states[n], id)
    ensures exists id :: id in waiting && states[n].held[Awaited(states[n], id)] !in waiting
  {
    var s := states[n];
    RunKeepsInv(states, labels, n);
    var top := HighestWait(s, waiting);
    var holder := s.held[Awaited(s, top)];
    if holder in waiting {
      LocksAreOrdered();
      WaitsUpwards(s, holder, Awaited(s, top));
    }
    assert holder !in waiting;
  }

  /** While there are tasks, one of them is not blocked. */
  lemma SomeoneCanGoOn(states: seq<System>, labels: seq<Label>, n: nat)
    requires Run(states, labels) && n < |states| && states[n].tasks.Keys != {}
    ensures exists id :: id in states[n].tasks && !Blocked(states[n], id)
  {
    var s := states[n];
    if forall id :: id in s.tasks ==> Blocked(s, id) {
      RunKeepsInv(states, labels, n);
      NoDeadlock(states, labels, n, s.tasks.Keys);
    }
  }

  // ---- Applies to one domain never overlap ----

  /** The apply has all its scope keys. */
  predicate InScope(s: System, id: TaskId) {
    id in s.tasks && s.tasks[id].kind.Applying? && s.tasks[id].got == |s.tasks[id].goal|
  }

  /** Two applies at work at once are for different domains, whatever their lock scopes. */
  lemma AppliesToOneDomainNeverOverlap(states: seq<System>, labels: seq<Label>, n: nat, a: TaskId, b: TaskId)
    requires Run(states, labels) && n < |states| && a != b && InScope(states[n], a) && InScope(states[n], b)
    ensures states[n].tasks[a].kind.domain != states[n].tasks[b].kind.domain
  {
    var s := states[n];
    RunKeepsInv(states, labels, n);
    assert TaskOk(s, a) && TaskOk(s, b);
    var x, y := s.tasks[a], s.tasks[b];
    assert x.goal[..x.got] == x.goal && y.goal[..y.got] == y.goal;
    assert Scope("domain:" + x.kind.domain) in Holding(x);
    assert Scope("domain:" + y.kind.domain) in Holding(y);
  }
}
