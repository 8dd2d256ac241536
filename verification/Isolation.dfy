/** What every interleaving of tasks keeps: one unresolved transaction per device, one writer
    per record, phases announced before calls, and phases that only move forward. */
module Isolation {
  import opened TxPhases
  import opened Journal
  import opened RecoveryOps
  import opened Interleaving
  import M = ApplyMachine

  /** A device is named by at most one transaction that still needs recovery. */
  ghost predicate Isolated(journal: map<TxId, Record>) {
    forall x, y, d ::
      (Unresolved(journal, x) && Unresolved(journal, y) && d in journal[x].devices && d in journal[y].devices)
      ==> x == y
  }

  /** Every unresolved transaction on the device is tx itself. */
  ghost predicate Alone(journal: map<TxId, Record>, d: DeviceId, tx: TxId) {
    forall x :: Unresolved(journal, x) && d in journal[x].devices ==> x == tx
  }

  ghost predicate Holds(s: System, t: TaskId, devices: seq<DeviceId>) {
    forall d :: d in devices ==> d in s.held && s.held[d] == t
  }

  ghost predicate ApplyOk(s: System, t: TaskId, tx: TxId, device: DeviceId, a: M.Apply) {
    && M.Inv(a) && !a.pc.Done? && tx in s.used
    && (!a.pc.WaitLock? ==> device in s.held && s.held[device] == t)
    && (a.stored.None? ==> tx !in s.journal)
    && (a.stored.Some? ==> tx in s.journal && s.journal[tx].phase == a.stored.value && s.journal[tx].devices == [device])
    && (!a.pc.WaitLock? && !a.pc.Gate? ==> Alone(s.journal, device, tx))
  }

  ghost predicate WorkOk(s: System, t: TaskId, work: Work, resolve: bool) {
    match work
    case Idle => !resolve
    case Locking(tx, want, got) =>
      && tx in s.journal && got <= |want|
      && (forall d :: d in want <==> d in s.journal[tx].devices)
      && forall i :: 0 <= i < got ==> want[i] in s.held && s.held[want[i]] == t
    case Reading(tx) => tx in s.journal && Holds(s, t, s.journal[tx].devices)
    case Storing(tx, record) =>
      && tx in s.journal && s.journal[tx] == record && Holds(s, t, record.devices)
      && (if resolve then record.phase.InDoubt? else RequiresRecovery(record.phase) && !record.phase.InDoubt?)
    case Asking(tx, record) =>
      && !resolve && tx in s.journal && s.journal[tx] == record.(phase := Recovering)
      && Holds(s, t, record.devices) && RequiresRecovery(record.phase) && !record.phase.InDoubt?
    case Concluding(tx, record, phase) =>
      && !resolve && tx in s.journal && s.journal[tx] == record.(phase := Recovering)
      && Holds(s, t, record.devices) && (phase.Committed? || phase.RolledBack? || phase.InDoubt?)
  }

  ghost predicate TaskOk(s: System, t: TaskId)
    requires t in s.tasks
  {
    match s.tasks[t]
    case ApplyTask(tx, device, a) => ApplyOk(s, t, tx, device, a)
    case RecoverTask(_, _, work) => WorkOk(s, t, work, false)
    case ResolveTask(work) => WorkOk(s, t, work, true)
  }

  ghost predicate JournalOk(s: System) {
    && s.journal.Keys <= s.used
    && forall tx :: tx in s.journal ==> s.journal[tx].devices != []
  }

  ghost predicate DistinctApplies(s: System) {
    forall t, u ::
      (&& t in s.tasks && u in s.tasks && s.tasks[t].ApplyTask? && s.tasks[u].ApplyTask?
       && s.tasks[t].tx == s.tasks[u].tx)
      ==> t == u
  }

  ghost predicate NoLostLock(s: System) {
    forall d :: d in s.held ==> s.held[d] in s.tasks
  }

  ghost predicate Inv(s: System) {
    && JournalOk(s) && Isolated(s.journal) && DistinctApplies(s) && NoLostLock(s)
    && forall t :: t in s.tasks ==> TaskOk(s, t)
  }

  /** A start: nothing runs, and the journal left by an earlier process isolates devices. */
  ghost predicate Init(s: System) {
    && s.tasks == map[] && s.held == map[] && s.log == [] && s.ended == []
    && JournalOk(s) && Isolated(s.journal)
  }

  // ---- Framing: an action of one task leaves the others as they were ----

  /** All changes of the journal are to records whose devices t holds. */
  ghost predicate WritesOwn(s: System, s': System, t: TaskId) {
    && s.journal.Keys <= s'.journal.Keys
    && (forall tx :: tx in s.journal ==> s'.journal[tx].devices == s.journal[tx].devices)
    && (forall tx :: tx in s'.journal && (tx !in s.journal || s'.journal[tx] != s.journal[tx])
                     ==> s'.journal[tx].devices != [] && Holds(s, t, s'.journal[tx].devices))
  }

  /** Locks of the other tasks are untouched. */
  ghost predicate KeepsOthersLocks(s: System, s': System, t: TaskId) {
    && (forall d :: d in s.held && s.held[d] != t ==> d in s'.held && s'.held[d] == s.held[d])
    && (forall d :: d in s'.held && s'.held[d] != t ==> d in s.held && s.held[d] == s'.held[d])
  }

  ghost predicate Acts(s: System, s': System, t: TaskId) {
    && WritesOwn(s, s', t) && KeepsOthersLocks(s, s', t)
    && s.used <= s'.used
    && (forall u :: u != t ==> (u in s.tasks <==> u in s'.tasks))
    && (forall u :: u != t && u in s.tasks ==> s'.tasks[u] == s.tasks[u])
    && (forall tx :: tx in s'.journal && tx !in s.journal ==> t in s.tasks && s.tasks[t].ApplyTask? && s.tasks[t].tx == tx)
  }

  /** A record whose devices are held by another task is not written. */
  lemma OthersRecordsStay(s: System, s': System, t: TaskId, u: TaskId, tx: TxId)
    requires JournalOk(s) && Acts(s, s', t) && u != t && tx in s.journal
    requires exists d :: d in s.journal[tx].devices && d in s.held && s.held[d] == u
    ensures s'.journal[tx] == s.journal[tx]
  {
  }

  lemma OtherTaskStaysOk(s: System, s': System, t: TaskId, u: TaskId)
    requires Inv(s) && Acts(s, s', t) && u != t && u in s.tasks
    ensures u in s'.tasks && TaskOk(s', u)
  {
    assert TaskOk(s, u);
    match s.tasks[u]
    case ApplyTask(tx, device, a) =>
      OtherApplyStaysOk(s, s', t, u, tx, device, a);
    case RecoverTask(_, _, work) => OtherWorkStaysOk(s, s', t, u, work, false);
    case ResolveTask(work) => OtherWorkStaysOk(s, s', t, u, work, true);
  }

  lemma OtherApplyStaysOk(s: System, s': System, t: TaskId, u: TaskId, tx: TxId, device: DeviceId, a: M.Apply)
    requires Inv(s) && Acts(s, s', t) && u != t && u in s.tasks && s.tasks[u] == ApplyTask(tx, device, a)
    requires ApplyOk(s, u, tx, device, a)
    ensures ApplyOk(s', u, tx, device, a)
  {
    if tx in s.journal {
      OthersRecordsStay(s, s', t, u, tx);
    }
  }

  lemma OtherWorkStaysOk(s: System, s': System, t: TaskId, u: TaskId, work: Work, resolve: bool)
    requires Inv(s) && Acts(s, s', t) && u != t && u in s.tasks && WorkOk(s, u, work, resolve)
    ensures WorkOk(s', u, work, resolve)
  {
    if work.Storing? || work.Asking? || work.Concluding? {
      assert s.journal[work.tx].devices[0] in s.journal[work.tx].devices;
      OthersRecordsStay(s, s', t, u, work.tx);
    }
  }

  /** The action of t keeps the invariant once its own share of it is shown. */
  lemma ActionKeepsInv(s: System, s': System, t: TaskId)
    requires Inv(s) && Acts(s, s', t)
    requires JournalOk(s') && Isolated(s'.journal) && DistinctApplies(s') && NoLostLock(s')
    requires t in s'.tasks ==> TaskOk(s', t)
    ensures Inv(s')
  {
    forall u | u in s'.tasks ensures TaskOk(s', u) {
      if u != t {
        OtherTaskStaysOk(s, s', t, u);
      }
    }
  }

  /** An action that writes nothing and starts no apply. */
  lemma QuietActionKeepsInv(s: System, s': System, t: TaskId)
    requires Inv(s) && t in s.tasks
    requires s'.journal == s.journal && s'.used == s.used && KeepsOthersLocks(s, s', t)
    requires s'.tasks == s.tasks - {t} || (t in s'.tasks && s'.tasks == s.tasks[t := s'.tasks[t]])
    requires t in s'.tasks && s'.tasks[t].ApplyTask? ==> s.tasks[t].ApplyTask? && s'.tasks[t].tx == s.tasks[t].tx
    requires t in s'.tasks ==> TaskOk(s', t)
    requires t !in s'.tasks ==> forall d :: d in s'.held ==> s'.held[d] != t
    ensures Inv(s')
  {
    ActionKeepsInv(s, s', t);
  }

  lemma WriteKeepsIsolation(journal: map<TxId, Record>, tx: TxId, record: Record)
    requires Isolated(journal) && forall d :: d in record.devices ==> Alone(journal, d, tx)
    ensures Isolated(journal[tx := record])
  {
  }

  /** A write by the task that holds the devices of the record, when nothing else is
      unresolved on them. */
  lemma WriteKeepsInv(s: System, s': System, t: TaskId, tx: TxId, record: Record)
    requires Inv(s) && t in s.tasks && Holds(s, t, record.devices)
    requires record.devices != [] && forall d :: d in record.devices ==> Alone(s.journal, d, tx)
    requires if tx in s.journal then record.devices == s.journal[tx].devices else s.tasks[t].ApplyTask? && s.tasks[t].tx == tx && tx in s.used
    requires s'.journal == s.journal[tx := record] && s'.used == s.used && KeepsOthersLocks(s, s', t)
    requires s'.tasks == s.tasks - {t} || (t in s'.tasks && s'.tasks == s.tasks[t := s'.tasks[t]])
    requires t in s'.tasks && s'.tasks[t].ApplyTask? ==> s.tasks[t].ApplyTask? && s'.tasks[t].tx == s.tasks[t].tx
    requires t in s'.tasks ==> TaskOk(s', t)
    requires t !in s'.tasks ==> forall d :: d in s'.held ==> s'.held[d] != t
    ensures Inv(s')
  {
    WriteKeepsIsolation(s.journal, tx, record);
    assert Acts(s, s', t);
    assert JournalOk(s') && DistinctApplies(s') && NoLostLock(s');
    ActionKeepsInv(s, s', t);
  }

  /** A write to a record that already needed recovery, by the task holding its devices. */
  lemma RewriteKeepsInv(s: System, s': System, t: TaskId, tx: TxId, record: Record)
    requires Inv(s) && t in s.tasks && !s.tasks[t].ApplyTask? && Unresolved(s.journal, tx)
    requires record.devices == s.journal[tx].devices && Holds(s, t, record.devices)
    requires s'.journal == s.journal[tx := record] && s'.used == s.used && KeepsOthersLocks(s, s', t)
    requires s'.tasks == s.tasks - {t} || (t in s'.tasks && s'.tasks == s.tasks[t := s'.tasks[t]])
    requires t in s'.tasks ==> !s'.tasks[t].ApplyTask? && TaskOk(s', t)
    requires t !in s'.tasks ==> forall d :: d in s'.held ==> s'.held[d] != t
    ensures Inv(s')
  {
    assert forall d :: d in record.devices ==> Alone(s.journal, d, tx);
    WriteKeepsInv(s, s', t, tx, record);
  }

  lemma ReadKeepsInv(s: System, t: TaskId, go: bool)
    requires Inv(s) && Enabled(s, Read(t, go))
    ensures Inv(Next(s, Read(t, go)))
  {
    assert TaskOk(s, t);
    QuietActionKeepsInv(s, Next(s, Read(t, go)), t);
  }

  lemma StoreKeepsInv(s: System, t: TaskId, outcome: M.PutOutcome)
    requires Inv(s) && Enabled(s, Store(t, outcome))
    ensures Inv(Next(s, Store(t, outcome)))
  {
    assert TaskOk(s, t);
    var s' := Next(s, Store(t, outcome));
    var work := WorkOf(s.tasks[t]);
    if outcome.Stored() {
      RewriteKeepsInv(s, s', t, work.tx, work.record.(phase := Recovered(s.tasks[t])));
    } else {
      QuietActionKeepsInv(s, s', t);
    }
  }

  lemma AskKeepsInv(s: System, t: TaskId, envs: seq<DeviceEnv>, persisted: bool)
    requires Inv(s) && Enabled(s, Ask(t, envs, persisted))
    ensures Inv(Next(s, Ask(t, envs, persisted)))
  {
    assert TaskOk(s, t);
    var work := WorkOf(s.tasks[t]);
    CombinedIsOneOfThree(work.record, ActionFor(work.record.phase), envs);
    QuietActionKeepsInv(s, Next(s, Ask(t, envs, persisted)), t);
  }

  lemma ConcludeKeepsInv(s: System, t: TaskId, outcome: M.PutOutcome)
    requires Inv(s) && Enabled(s, Conclude(t, outcome))
    ensures Inv(Next(s, Conclude(t, outcome)))
  {
    assert TaskOk(s, t);
    var s' := Next(s, Conclude(t, outcome));
    var work := WorkOf(s.tasks[t]);
    if outcome.Stored() {
      RewriteKeepsInv(s, s', t, work.tx, work.record.(phase := work.phase));
    } else {
      QuietActionKeepsInv(s, s', t);
    }
  }

  lemma LockKeepsInv(s: System, t: TaskId)
    requires Inv(s) && Enabled(s, Lock(t))
    ensures Inv(Next(s, Lock(t)))
  {
    assert TaskOk(s, t);
    QuietActionKeepsInv(s, Next(s, Lock(t)), t);
  }

  lemma LockedKeepsInv(s: System, t: TaskId)
    requires Inv(s) && Enabled(s, Locked(t))
    ensures Inv(Next(s, Locked(t)))
  {
    assert TaskOk(s, t);
    var work := WorkOf(s.tasks[t]);
    var s' := Next(s, Locked(t));
    forall d | d in s.journal[work.tx].devices ensures d in s'.held && s'.held[d] == t {
      assert d in work.want;
    }
    QuietActionKeepsInv(s, s', t);
  }

  lemma PickKeepsInv(s: System, t: TaskId)
    requires Inv(s) && Enabled(s, Pick(t))
    ensures Inv(Next(s, Pick(t)))
  {
    assert TaskOk(s, t);
    QuietActionKeepsInv(s, Next(s, Pick(t)), t);
  }

  lemma SpawnApplyKeepsInv(s: System, l: Label)
    requires Inv(s) && Enabled(s, l) && l.SpawnApply?
    ensures Inv(Next(s, l))
  {
    ActionKeepsInv(s, Next(s, l), l.t);
  }

  lemma SpawnWorkKeepsInv(s: System, l: Label)
    requires Inv(s) && Enabled(s, l) && (l.SpawnRecovery? || l.SpawnResolve?)
    ensures Inv(Next(s, l))
  {
    ActionKeepsInv(s, Next(s, l), l.t);
  }

  /** The writes of an apply: the first creates its record, the others update it. */
  lemma ApplyWriteKeepsInv(s: System, t: TaskId, input: M.Input)
    requires Inv(s) && Enabled(s, ApplyStep(t, input)) && Lands(s.tasks[t].a, input)
    ensures Inv(Next(s, ApplyStep(t, input)))
  {
    assert TaskOk(s, t);
    var ApplyTask(tx, device, a) := s.tasks[t];
    var s' := Next(s, ApplyStep(t, input));
    var record := Record(M.Target(a.pc.w, a.mem), [device], a.strategy);
    M.StepKeepsInv(a, input);
    assert s'.journal == s.journal[tx := record];
    if !M.Step(a, input).pc.Done? {
      ApplyStaysOkAfterWrite(s, s', t, tx, device, a, input);
    }
    WriteKeepsInv(s, s', t, tx, record);
  }

  lemma ApplyStaysOkAfterWrite(s: System, s': System, t: TaskId, tx: TxId, device: DeviceId, a: M.Apply, input: M.Input)
    requires ApplyOk(s, t, tx, device, a) && M.Fits(a.pc, input) && Lands(a, input)
    requires s'.journal == s.journal[tx := Record(M.Target(a.pc.w, a.mem), [device], a.strategy)]
    requires s'.used == s.used && device in s'.held && s'.held[device] == t
    requires M.Inv(M.Step(a, input)) && !M.Step(a, input).pc.Done?
    ensures ApplyOk(s', t, tx, device, M.Step(a, input))
  {
  }

  /** A step that writes no record keeps the journal and the locks of the others. */
  lemma QuietStepShape(s: System, t: TaskId, input: M.Input)
    requires Enabled(s, ApplyStep(t, input)) && !Lands(s.tasks[t].a, input)
    ensures var s', b := Next(s, ApplyStep(t, input)), M.Step(s.tasks[t].a, input);
            && s'.journal == s.journal && s'.used == s.used && KeepsOthersLocks(s, s', t)
            && (b.pc.Done? ==> s'.tasks == s.tasks - {t} && forall d :: d in s'.held ==> s'.held[d] != t)
            && (!b.pc.Done? ==> s'.tasks == s.tasks[t := ApplyTask(s.tasks[t].tx, s.tasks[t].device, b)])
            && (!b.pc.Done? && !s.tasks[t].a.pc.WaitLock? ==> s'.held == s.held)
            && (!b.pc.Done? && s.tasks[t].a.pc.WaitLock? ==> s.tasks[t].device in s'.held && s'.held[s.tasks[t].device] == t)
  {
  }

  lemma ApplyStaysOkQuietly(s: System, s': System, t: TaskId, tx: TxId, device: DeviceId, a: M.Apply, input: M.Input)
    requires ApplyOk(s, t, tx, device, a) && M.Fits(a.pc, input) && !Lands(a, input)
    requires a.pc.Gate? && !input.gate.GateError? ==> (input.gate.Blocked? <==> Blocks(s.journal, device))
    requires s'.journal == s.journal && s'.used == s.used && device in s'.held && s'.held[device] == t
    requires M.Inv(M.Step(a, input)) && !M.Step(a, input).pc.Done?
    ensures ApplyOk(s', t, tx, device, M.Step(a, input))
  {
  }

  lemma ApplyQuietStepKeepsInv(s: System, t: TaskId, input: M.Input)
    requires Inv(s) && Enabled(s, ApplyStep(t, input)) && !Lands(s.tasks[t].a, input)
    ensures Inv(Next(s, ApplyStep(t, input)))
  {
    assert TaskOk(s, t);
    var ApplyTask(tx, device, a) := s.tasks[t];
    var s' := Next(s, ApplyStep(t, input));
    M.StepKeepsInv(a, input);
    QuietStepShape(s, t, input);
    if !M.Step(a, input).pc.Done? {
      ApplyStaysOkQuietly(s, s', t, tx, device, a, input);
    }
    QuietActionKeepsInv(s, s', t);
  }

  lemma StepKeepsInv(s: System, l: Label)
    requires Inv(s) && Enabled(s, l)
    ensures Inv(Next(s, l))
  {
    match l
    case SpawnApply(_, _, _, _) => SpawnApplyKeepsInv(s, l);
    case SpawnRecovery(_, _, _) => SpawnWorkKeepsInv(s, l);
    case SpawnResolve(_, _) => SpawnWorkKeepsInv(s, l);
    case ApplyStep(t, input) =>
      if Lands(s.tasks[t].a, input) {
        ApplyWriteKeepsInv(s, t, input);
      } else {
        ApplyQuietStepKeepsInv(s, t, input);
      }
    case Pick(t) => PickKeepsInv(s, t);
    case Lock(t) => LockKeepsInv(s, t);
    case Locked(t) => LockedKeepsInv(s, t);
    case Read(t, go) => ReadKeepsInv(s, t, go);
    case Store(t, outcome) => StoreKeepsInv(s, t, outcome);
    case Ask(t, envs, persisted) => AskKeepsInv(s, t, envs, persisted);
    case Conclude(t, outcome) => ConcludeKeepsInv(s, t, outcome);
    case Abandon(t) => QuietActionKeepsInv(s, Ends(s, t), t);
    case Crash =>
  }

  // ---- Single steps ----

  /** The task a label belongs to, if it is one that can write the journal. */
  ghost predicate WritesFor(s: System, l: Label, tx: TxId) {
    match l
    case ApplyStep(t, input) => t in s.tasks && s.tasks[t].ApplyTask? && s.tasks[t].tx == tx && Lands(s.tasks[t].a, input)
    case Store(t, outcome) => t in s.tasks && WorkOf(s.tasks[t]).Storing? && WorkOf(s.tasks[t]).tx == tx && outcome.Stored()
    case Conclude(t, outcome) => t in s.tasks && WorkOf(s.tasks[t]).Concluding? && WorkOf(s.tasks[t]).tx == tx && outcome.Stored()
    case _ => false
  }

  /** A record is written only by a task that holds the locks of all its devices, and its
      devices never change. */
  lemma OnlyTheHolderWrites(s: System, l: Label, tx: TxId)
    requires Inv(s) && Enabled(s, l) && tx in s.journal
    ensures var s' := Next(s, l);
            && tx in s'.journal && s'.journal[tx].devices == s.journal[tx].devices
            && (s'.journal[tx] != s.journal[tx] ==> WritesFor(s, l, tx) && Holds(s, l.t, s.journal[tx].devices))
  {
    if l.ApplyStep? {
      ApplyWritesItsOwn(s, l, tx);
    } else if l.Store? || l.Conclude? {
      WorkWritesItsOwn(s, l, tx);
    }
  }

  lemma ApplyWritesItsOwn(s: System, l: Label, tx: TxId)
    requires Inv(s) && Enabled(s, l) && tx in s.journal && l.ApplyStep?
    ensures var s' := Next(s, l);
            && tx in s'.journal && s'.journal[tx].devices == s.journal[tx].devices
            && (s'.journal[tx] != s.journal[tx] ==> WritesFor(s, l, tx) && Holds(s, l.t, s.journal[tx].devices))
  {
    assert TaskOk(s, l.t);
  }

  lemma WorkWritesItsOwn(s: System, l: Label, tx: TxId)
    requires Inv(s) && Enabled(s, l) && tx in s.journal && (l.Store? || l.Conclude?)
    ensures var s' := Next(s, l);
            && tx in s'.journal && s'.journal[tx].devices == s.journal[tx].devices
            && (s'.journal[tx] != s.journal[tx] ==> WritesFor(s, l, tx) && Holds(s, l.t, s.journal[tx].devices))
  {
    assert TaskOk(s, l.t);
  }

  /** Stored phases follow the allowed relation; the one exception leads from RollingBack to
      Failed, and occurs exactly when an apply's put of RollingBack had failed after its rename
      and its put of Failed then lands. */
  lemma PhaseMovesForward(s: System, l: Label, tx: TxId)
    requires Inv(s) && Enabled(s, l) && tx in s.journal
    ensures var s' := Next(s, l);
            && tx in s'.journal
            && (!IsAllowed(s.journal[tx].phase, s'.journal[tx].phase) <==>
                  l.ApplyStep? && s.tasks[l.t].tx == tx && M.SkipsRollback(s.tasks[l.t].a, l.input))
            && (!IsAllowed(s.journal[tx].phase, s'.journal[tx].phase) ==>
                  s.journal[tx].phase == RollingBack && s'.journal[tx].phase == Failed)
  {
    OnlyTheHolderWrites(s, l, tx);
    match l
    case ApplyStep(t, input) =>
      assert TaskOk(s, t);
      if s.tasks[t].tx == tx && s.tasks[t].a.stored.Some? {
        M.StoredPhaseMoves(s.tasks[t].a, input);
      }
    case Store(t, _) => assert TaskOk(s, t);
    case Conclude(t, _) => assert TaskOk(s, t);
    case _ =>
  }
}
