/** Applies, recovery passes, the confirmed-commit watcher and manual resolution, running at
    once over one journal and one table of endpoint locks. Each label is one atomic action of
    one task; a task may be abandoned, or the process may crash, between any two actions. A
    crash keeps the journal and loses locks and tasks. */
module Interleaving {
  import opened Wrappers
  import opened TxPhases
  import opened Strategies
  import opened Journal
  import opened RecoveryOps
  import Ordering
  import M = ApplyMachine

  type TaskId = nat

  datatype Gate = AnyRecoverable | TimedOutConfirmedCommit

  /** Progress of recovery or of a manual resolution on one record. */
  datatype Work =
    | Idle
    | Locking(tx: TxId, want: seq<DeviceId>, got: nat)
    | Reading(tx: TxId)
    | Storing(tx: TxId, record: Record)
    | Asking(tx: TxId, record: Record)
    | Concluding(tx: TxId, record: Record, phase: TxPhase)

  datatype Task =
    | ApplyTask(tx: TxId, device: DeviceId, a: M.Apply)
    | RecoverTask(queue: seq<TxId>, gate: Gate, work: Work)
    | ResolveTask(work: Work)

  datatype Call = FromApply(rpc: M.Rpc) | FromRecovery(action: RecoveryAction)

  datatype Event = Event(tx: TxId, device: DeviceId, call: Call)

  datatype System = System(
    journal: map<TxId, Record>,
    held: map<DeviceId, TaskId>,
    tasks: map<TaskId, Task>,
    used: set<TxId>,
    log: seq<Event>,
    ended: seq<(TxId, M.Apply)>)

  datatype Label =
    | SpawnApply(t: TaskId, tx: TxId, device: DeviceId, allowDegraded: bool)
    | SpawnRecovery(t: TaskId, candidates: seq<TxId>, gate: Gate)
    | SpawnResolve(t: TaskId, tx: TxId)
    | ApplyStep(t: TaskId, input: M.Input)
    | Pick(t: TaskId)
    | Lock(t: TaskId)
    | Locked(t: TaskId)
    | Read(t: TaskId, go: bool)
    | Store(t: TaskId, outcome: M.PutOutcome)
    | Ask(t: TaskId, envs: seq<DeviceEnv>, persisted: bool)
    | Conclude(t: TaskId, outcome: M.PutOutcome)
    | Abandon(t: TaskId)
    | Crash

  predicate GateMatches(gate: Gate, record: Record, elapsed: bool) {
    || gate.AnyRecoverable?
    || (&& record.strategy == Some(ConfirmedCommit) && elapsed
        && (record.phase.Committing? || record.phase.Verifying? || record.phase.FinalConfirming? || record.phase.Recovering?))
  }

  function Released(held: map<DeviceId, TaskId>, t: TaskId): map<DeviceId, TaskId> {
    map d | d in held && held[d] != t :: held[d]
  }

  function WorkOf(task: Task): Work {
    if task.ApplyTask? then Idle else task.work
  }

  function WithWork(task: Task, work: Work): Task {
    match task
    case ApplyTask(_, _, _) => task
    case RecoverTask(queue, gate, _) => RecoverTask(queue, gate, work)
    case ResolveTask(_) => ResolveTask(work)
  }

  /** The locks of an endpoint list are taken in ascending order, each once. */
  ghost function LockOrder(devices: seq<DeviceId>): (want: seq<DeviceId>)
    ensures forall d :: d in want <==> d in devices
    ensures Ordering.Ascending(Ordering.StringLe, want)
  {
    Ordering.Strings(set d | d in devices)
  }

  predicate Enabled(s: System, l: Label) {
    match l
    case SpawnApply(t, tx, _, _) => t !in s.tasks && tx !in s.used
    case SpawnRecovery(t, candidates, _) => t !in s.tasks && forall tx | tx in candidates :: tx in s.journal
    case SpawnResolve(t, tx) => t !in s.tasks && tx in s.journal
    case ApplyStep(t, input) =>
      && t in s.tasks && s.tasks[t].ApplyTask?
      && var a, d := s.tasks[t].a, s.tasks[t].device;
      && M.Fits(a.pc, input)
      && (a.pc.WaitLock? && input.ok ==> d !in s.held)
      && (a.pc.Gate? && !input.gate.GateError? ==> (input.gate.Blocked? <==> Blocks(s.journal, d)))
    case Pick(t) => t in s.tasks && s.tasks[t].RecoverTask? && s.tasks[t].work.Idle?
    case Lock(t) =>
      && t in s.tasks && WorkOf(s.tasks[t]).Locking?
      && var w := WorkOf(s.tasks[t]);
      w.got < |w.want| && w.want[w.got] !in s.held
    case Locked(t) =>
      && t in s.tasks && WorkOf(s.tasks[t]).Locking?
      && WorkOf(s.tasks[t]).got == |WorkOf(s.tasks[t]).want|
    case Read(t, _) => t in s.tasks && WorkOf(s.tasks[t]).Reading?
    case Store(t, _) => t in s.tasks && WorkOf(s.tasks[t]).Storing?
    case Ask(t, envs, _) =>
      && t in s.tasks && WorkOf(s.tasks[t]).Asking?
      && |envs| == |WorkOf(s.tasks[t]).record.devices|
    case Conclude(t, _) => t in s.tasks && WorkOf(s.tasks[t]).Concluding?
    case Abandon(t) => t in s.tasks
    case Crash => true
  }

  /** The task gives back its locks and is gone. */
  function Ends(s: System, t: TaskId): System {
    s.(held := Released(s.held, t), tasks := s.tasks - {t})
  }

  /** The task gives back its locks and goes on to its next candidate. */
  function Moves(s: System, t: TaskId): System
    requires t in s.tasks
  {
    s.(held := Released(s.held, t), tasks := s.tasks[t := WithWork(s.tasks[t], Idle)])
  }

  /** A manual resolution has a single record; recovery has further candidates. */
  function Leaves(s: System, t: TaskId): System
    requires t in s.tasks
  {
    if s.tasks[t].RecoverTask? then Moves(s, t) else Ends(s, t)
  }

  function Works(s: System, t: TaskId, work: Work): System
    requires t in s.tasks
  {
    s.(tasks := s.tasks[t := WithWork(s.tasks[t], work)])
  }

  function Written(s: System, tx: TxId, record: Record, outcome: M.PutOutcome): System {
    if outcome.Stored() then s.(journal := s.journal[tx := record]) else s
  }

  predicate Lands(a: M.Apply, input: M.Input) {
    && a.pc.Put? && input.Wrote? && input.outcome.Stored()
    && IsAllowed(a.mem, M.Target(a.pc.w, a.mem))
  }

  function AfterApplyStep(s: System, t: TaskId, input: M.Input): System
    requires Enabled(s, ApplyStep(t, input))
  {
    var ApplyTask(tx, device, a) := s.tasks[t];
    var b := M.Step(a, input);
    var s1 :=
      if Lands(a, input) then
        s.(journal := s.journal[tx := Record(M.Target(a.pc.w, a.mem), [device], a.strategy)])
      else if a.pc.Call? then s.(log := s.log + [Event(tx, device, FromApply(a.pc.rpc))])
      else if a.pc.WaitLock? && input.ok then s.(held := s.held[device := t])
      else s;
    if b.pc.Done? then Ends(s1.(ended := s1.ended + [(tx, b)]), t)
    else s1.(tasks := s1.tasks[t := ApplyTask(tx, device, b)])
  }

  function Recovered(task: Task): TxPhase {
    if task.RecoverTask? then Recovering else ForceResolved
  }

  function AfterRead(s: System, t: TaskId, go: bool): System
    requires Enabled(s, Read(t, go))
  {
    var tx := WorkOf(s.tasks[t]).tx;
    if tx !in s.journal then Leaves(s, t)
    else
      var record := s.journal[tx];
      var proceed := match s.tasks[t]
                     case RecoverTask(_, gate, _) =>
                       RequiresRecovery(record.phase) && !record.phase.InDoubt? && GateMatches(gate, record, go)
                     case _ => record.phase.InDoubt? && go;
      if proceed then Works(s, t, Storing(tx, record)) else Leaves(s, t)
  }

  function AfterStore(s: System, t: TaskId, outcome: M.PutOutcome): System
    requires Enabled(s, Store(t, outcome))
  {
    var work := WorkOf(s.tasks[t]);
    var s1 := Written(s, work.tx, work.record.(phase := Recovered(s.tasks[t])), outcome);
    if outcome.PutOk? && s.tasks[t].RecoverTask? then Works(s1, t, Asking(work.tx, work.record)) else Ends(s1, t)
  }

  function AfterAsk(s: System, t: TaskId, envs: seq<DeviceEnv>, persisted: bool): System
    requires Enabled(s, Ask(t, envs, persisted))
  {
    var work := WorkOf(s.tasks[t]);
    var action := ActionFor(work.record.phase);
    var asked := seq(|work.record.devices|, i requires 0 <= i < |work.record.devices| =>
                       Event(work.tx, work.record.devices[i], FromRecovery(action)));
    Works(s.(log := s.log + asked), t,
          Concluding(work.tx, work.record, Resolution(work.record, action, envs, persisted)))
  }

  function AfterConclude(s: System, t: TaskId, outcome: M.PutOutcome): System
    requires Enabled(s, Conclude(t, outcome))
  {
    var work := WorkOf(s.tasks[t]);
    var s1 := Written(s, work.tx, work.record.(phase := work.phase), outcome);
    if outcome.PutOk? then Leaves(s1, t) else Ends(s1, t)
  }

  ghost function Next(s: System, l: Label): System
    requires Enabled(s, l)
  {
    match l
    case SpawnApply(t, tx, device, allowDegraded) =>
      s.(tasks := s.tasks[t := ApplyTask(tx, device, M.Fresh(allowDegraded))], used := s.used + {tx})
    case SpawnRecovery(t, candidates, gate) => s.(tasks := s.tasks[t := RecoverTask(candidates, gate, Idle)])
    case SpawnResolve(t, tx) =>
      s.(tasks := s.tasks[t := ResolveTask(Locking(tx, LockOrder(s.journal[tx].devices), 0))])
    case ApplyStep(t, input) => AfterApplyStep(s, t, input)
    case Pick(t) =>
      var RecoverTask(queue, gate, _) := s.tasks[t];
      if queue == [] then Ends(s, t)
      else if queue[0] !in s.journal then s.(tasks := s.tasks[t := RecoverTask(queue[1..], gate, Idle)])
      else
        var want := LockOrder(s.journal[queue[0]].devices);
        s.(tasks := s.tasks[t := RecoverTask(queue[1..], gate, Locking(queue[0], want, 0))])
    case Lock(t) =>
      var w := WorkOf(s.tasks[t]);
      Works(s.(held := s.held[w.want[w.got] := t]), t, w.(got := w.got + 1))
    case Locked(t) => Works(s, t, Reading(WorkOf(s.tasks[t]).tx))
    case Read(t, go) => AfterRead(s, t, go)
    case Store(t, outcome) => AfterStore(s, t, outcome)
    case Ask(t, envs, persisted) => AfterAsk(s, t, envs, persisted)
    case Conclude(t, outcome) => AfterConclude(s, t, outcome)
    case Abandon(t) => Ends(s, t)
    case Crash => s.(held := map[], tasks := map[])
  }
}
