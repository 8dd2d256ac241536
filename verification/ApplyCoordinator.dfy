/** The apply of one endpoint as the coordinator runs it: a journal record in memory, advanced step by step,
    with journal and shadow writes between the remote calls. */
module ApplyCoordinator {
  import opened Wrappers
  import opened TxPhases
  import opened Strategies
  import opened Journal
  import opened ConfigModel
  import opened Objects
  import opened Diff
  import opened DiffLoops
  import M = ApplyMachine
  import O = ApplyOutcomes

  /** Everything the surroundings decide, by the number of the access. */
  datatype Env = Env(
    works: nat -> bool,
    current: nat -> Option<Shadow>,
    strategy: nat -> Option<Strategy>,
    put: nat -> M.PutOutcome,
    answer: nat -> Answer)

  /** The stored form of a new shadow: the revision counts up from the stored one, up to the largest u64. */
  function Revised(previous: Option<Shadow>, s: Shadow): Shadow {
    if previous.Some? then
      s.(revision := if previous.value.revision < 0xFFFF_FFFF_FFFF_FFFF then previous.value.revision + 1
                     else previous.value.revision)
    else s.(revision := if s.revision == 0 then 1 else s.revision)
  }

  function Previous(shadows: map<DeviceId, Shadow>, device: DeviceId): Option<Shadow> {
    if device in shadows then Some(shadows[device]) else None
  }

  /** The state that follows a recorded one, or none, when the operations have been carried out: every object has
      the fate the operations give it, and the revision counts the states, up to the largest u64. */
  ghost predicate Follows(previous: Option<Shadow>, next: Shadow, device: DeviceId, ops: seq<ChangeOp>) {
    && next.deviceId == device && next.warnings == []
    && next.revision == (if previous.None? then 1
                         else if previous.value.revision >= 0xFFFF_FFFF_FFFF_FFFF then previous.value.revision
                         else previous.value.revision + 1)
    && forall k :: Look(next, k) == Fate(if previous.Some? then Look(previous.value, k) else None, k, ops)
  }

  lemma RevisedFollows(previous: Option<Shadow>, desired: Desired, ops: seq<ChangeOp>)
    ensures Follows(previous, Revised(previous, ShadowAfter(previous, desired, 0, ops)), desired.deviceId, ops)
  {
    var t := ShadowAfter(previous, desired, 0, ops);
    ShadowAfterHolds(previous, desired, 0, ops, VlanKey(0));
    forall k ensures Look(Revised(previous, t), k) == Fate(if previous.Some? then Look(previous.value, k) else None, k, ops) {
      ShadowAfterHolds(previous, desired, 0, ops, k);
    }
  }

  class EndpointApply {
    const env: Env
    const tx: TxId
    const desired: Desired
    const allowDegraded: bool
    var clock: nat
    var journal: map<TxId, Record>
    var shadows: map<DeviceId, Shadow>
    var record: Record
    /** The same apply as a run of the machine. */
    ghost var run: M.Apply

    constructor (env: Env, tx: TxId, desired: Desired, allowDegraded: bool,
                 journal: map<TxId, Record>, shadows: map<DeviceId, Shadow>)
      requires tx !in journal
      ensures Valid() && run == M.Fresh(allowDegraded)
      ensures this.env == env && this.tx == tx && this.desired == desired && this.allowDegraded == allowDegraded
      ensures this.clock == 0 && this.journal == journal && this.shadows == shadows
    {
      this.env, this.tx, this.desired, this.allowDegraded := env, tx, desired, allowDegraded;
      this.clock, this.journal, this.shadows := 0, journal, shadows;
      this.record := Record(Started, [desired.deviceId], None);
      this.run := M.Fresh(allowDegraded);
      assert M.Trace([M.Fresh(allowDegraded)]);
    }

    /** The record of this transaction at a phase; the strategy is in it from the choice of strategy on. */
    predicate IsRecord(r: Record, phase: TxPhase, strategy: Option<Strategy>) {
      && r.phase == phase && r.devices == [desired.deviceId]
      && (!phase.Started? && !phase.Preparing? ==> r.strategy == strategy)
    }

    /** Memory and journal are those of the machine. */
    ghost predicate Valid()
      reads this
    {
      && M.Reachable(run) && run.allowDegraded == allowDegraded
      && run.mem == record.phase && run.strategy == record.strategy && record.devices == [desired.deviceId]
      && (run.stored.None? <==> tx !in journal)
      && (run.stored.Some? ==> IsRecord(journal[tx], run.stored.value, run.strategy))
    }

    /** Nothing but the record of this transaction has changed. */
    twostate predicate OnlyOwnRecord()
      reads this
    {
      journal - {tx} == old(journal) - {tx}
    }

    /** Writes the given record: it may be refused, or fail after it has landed. */
    method PutRecord(r: Record) returns (outcome: M.PutOutcome)
      modifies this`clock, this`journal
      ensures outcome == env.put(old(clock))
      ensures journal == if outcome.PutLost? then old(journal) else old(journal)[tx := r]
    {
      outcome := env.put(clock);
      clock := clock + 1;
      if !outcome.PutLost? {
        journal := journal[tx := r];
      }
    }

    /** Changes the phase in memory, if that is allowed, and writes the record. */
    method Advance(target: TxPhase, ghost w: M.Write) returns (ok: bool)
      requires Valid() && run.pc == M.Put(w) && target == M.Target(w, record.phase)
      requires !w.WRollingBack? && !w.WFinish?
      modifies this`clock, this`journal, this`record, this`run
      ensures Valid() && OnlyOwnRecord()
      ensures run.pc == if ok then M.AfterWrite(w, old(run).mem, old(run).strategy) else M.AfterFailedWrite(w, old(run).mem)
      ensures run.strategy == old(run).strategy
      ensures ok ==> tx in journal && journal[tx] == record
      ensures IsAllowed(old(record).phase, target) ==> (ok <==> env.put(old(clock)).PutOk?)
    {
      if !IsAllowed(record.phase, target) {
        run := M.Onward(run, M.Wrote(M.PutOk));
        return false;
      }
      record := record.(phase := target);
      var outcome := PutRecord(record);
      run := M.Onward(run, M.Wrote(outcome));
      ok := outcome.PutOk?;
    }

    /** Sends a call and waits for the answer. */
    method Ask(ghost rpc: M.Rpc) returns (answer: Answer)
      requires Valid() && run.pc == M.Call(rpc)
      modifies this`clock, this`run
      ensures Valid() && run.pc == M.OnAnswer(old(run), rpc, answer)
      ensures run.mem == old(run).mem && run.stored == old(run).stored && run.strategy == old(run).strategy
    {
      run := M.Onward(run, M.Sent);
      answer := env.answer(clock);
      clock := clock + 1;
      run := M.Onward(run, M.Answered(answer));
    }

    /** Writes RollingBack; the record in memory follows only once that is done. */
    method BeginRollback() returns (ok: bool)
      requires Valid() && run.pc == M.Put(M.WRollingBack)
      modifies this`clock, this`journal, this`record, this`run
      ensures Valid() && OnlyOwnRecord() && run.strategy == old(run).strategy
      ensures run.pc == if ok then M.Call(M.Rollback) else M.Put(M.WFinish)
    {
      if !IsAllowed(record.phase, RollingBack) {
        run := M.Onward(run, M.Wrote(M.PutOk));
        return false;
      }
      var rolling := record.(phase := RollingBack);
      var outcome := PutRecord(rolling);
      run := M.Onward(run, M.Wrote(outcome));
      ok := outcome.PutOk?;
      if ok {
        record := rolling;
      }
    }

    /** Rolls back after a failed step. */
    method RollbackAfterFailure()
      requires Valid() && run.pc == M.Put(M.WRollingBack)
      modifies this`clock, this`journal, this`record, this`run
      ensures Valid() && OnlyOwnRecord() && run.pc == M.Put(M.WFinish) && run.strategy == old(run).strategy
    {
      var begun := BeginRollback();
      if !begun {
        return;
      }
      var answer := Ask(M.Rollback);
      if answer == Reply(StatusRolledBack) || answer == Reply(NoChange) {
        var _ := Advance(RolledBack, M.WRolledBack);
      } else {
        var _ := Advance(InDoubt, M.WRollbackInDoubt);
      }
    }

    method PrepareEndpoint() returns (ok: bool)
      requires Valid() && run.pc == M.Call(M.Prepare)
      modifies this`clock, this`journal, this`record, this`run
      ensures Valid() && OnlyOwnRecord() && run.strategy == old(run).strategy
      ensures run.pc == if ok then M.Put(M.WCommitting) else M.Put(M.WFinish)
    {
      var answer := Ask(M.Prepare);
      if answer != Reply(StatusPrepared) {
        RollbackAfterFailure();
        return false;
      }
      ok := Advance(Prepared, M.WPrepared);
    }

    method CommitEndpoint(strategy: Strategy) returns (ok: bool)
      requires Valid() && run.pc == M.Put(M.WCommitting) && run.strategy == Some(strategy)
      modifies this`clock, this`journal, this`record, this`run
      ensures Valid() && OnlyOwnRecord() && run.strategy == old(run).strategy
      ensures run.pc == if ok then M.Put(M.WVerifying) else M.Put(M.WFinish)
    {
      ok := Advance(Committing, M.WCommitting);
      if !ok {
        return;
      }
      var answer := Ask(M.Commit);
      ok := answer.Reply? && CommitStatusMatches(answer.status, strategy);
      if !ok {
        RollbackAfterFailure();
      }
    }

    method VerifyEndpoint() returns (ok: bool)
      requires Valid() && run.pc == M.Put(M.WVerifying)
      modifies this`clock, this`journal, this`record, this`run
      ensures Valid() && OnlyOwnRecord() && run.strategy == old(run).strategy
      ensures run.pc == if ok then M.Put(M.WFinalConfirming) else M.Put(M.WFinish)
    {
      ok := Advance(Verifying, M.WVerifying);
      if !ok {
        return;
      }
      var answer := Ask(M.Verify);
      ok := answer == Reply(NoChange) || answer == Reply(StatusCommitted);
      if !ok {
        RollbackAfterFailure();
      }
    }

    method FinalConfirmEndpoint() returns (ok: bool)
      requires Valid() && run.pc == M.Put(M.WFinalConfirming) && run.strategy == Some(ConfirmedCommit)
      modifies this`clock, this`journal, this`record, this`run
      ensures Valid() && OnlyOwnRecord() && run.strategy == old(run).strategy
      ensures run.pc == if ok then M.Put(M.WCommitted) else M.Put(M.WFinish)
    {
      ok := Advance(FinalConfirming, M.WFinalConfirming);
      if !ok {
        return;
      }
      var answer := Ask(M.FinalConfirm);
      ok := answer == Reply(StatusCommitted);
      if !ok {
        RollbackAfterFailure();
      }
    }

    /** The other strategies have nothing to confirm; the phase is passed through. */
    method FinalizeNonConfirmed() returns (ok: bool)
      requires Valid() && run.pc == M.Put(M.WFinalConfirming) && run.strategy != Some(ConfirmedCommit)
      modifies this`clock, this`journal, this`record, this`run
      ensures Valid() && OnlyOwnRecord() && run.strategy == old(run).strategy
      ensures run.pc == if ok then M.Put(M.WCommitted) else M.Put(M.WFinish)
    {
      ok := Advance(FinalConfirming, M.WFinalConfirming);
    }

    /** Finds the strategy of the device and writes it into the record. */
    method ChooseStrategy() returns (strategy: Option<Strategy>)
      requires Valid() && run.pc == M.Probe
      modifies this`clock, this`journal, this`record, this`run
      ensures Valid() && OnlyOwnRecord()
      ensures run.pc == if strategy.Some? then M.Call(M.Prepare) else M.Put(M.WFinish)
      ensures strategy.Some? ==> run.strategy == strategy == env.strategy(old(clock))
      ensures strategy.Some? ==> tx in journal && journal[tx].strategy == strategy
      ensures strategy.Some? && !allowDegraded ==> strategy.value in {ConfirmedCommit, CandidateCommit}
      ensures strategy.Some? ==> !strategy.value.Unsupported?
      ensures strategy.None? && env.put(old(clock) + 1).PutOk? ==>
                || env.strategy(old(clock)) in {None, Some(Unsupported)}
                || (!allowDegraded && env.strategy(old(clock)) in {Some(RunningRollbackOnError), Some(BestEffortCli)})
    {
      M.ReachableHasInv(run);
      var found := env.strategy(clock);
      clock := clock + 1;
      run := M.Onward(run, M.Probed(found));
      if found.None? || !found.value.Supported() || (found.value.Degraded() && !allowDegraded) {
        return None;
      }
      record := record.(strategy := found);
      SelfStepIsAllowed(record.phase);
      var ok := Advance(record.phase, M.WStrategy);
      strategy := if ok then found else None;
    }

    /** The remote calls of an apply, from the choice of strategy to the last confirmation. */
    method ApplyChangedEndpoint() returns (ok: bool)
      requires Valid() && run.pc == M.Probe
      modifies this`clock, this`journal, this`record, this`run
      ensures Valid() && OnlyOwnRecord()
      ensures run.pc == if ok then M.Put(M.WCommitted) else M.Put(M.WFinish)
    {
      var strategy := ChooseStrategy();
      if strategy.None? {
        return false;
      }
      ok := PrepareEndpoint();
      if ok {
        ok := CommitEndpoint(strategy.value);
      }
      if ok {
        ok := VerifyEndpoint();
      }
      if ok {
        if strategy == Some(ConfirmedCommit) {
          ok := FinalConfirmEndpoint();
        } else {
          ok := FinalizeNonConfirmed();
        }
      }
    }

    /** Marks a committed transaction in doubt because its shadow could not be brought up to date. */
    method ShadowInDoubt()
      requires Valid() && run.pc == M.Put(M.WShadowInDoubt)
      modifies this`clock, this`journal, this`record, this`run
      ensures Valid() && OnlyOwnRecord() && run.pc == M.Done(ApplyInDoubt)
    {
      var _ := Advance(InDoubt, M.WShadowInDoubt);
    }

    /** The shadow the change set leads to from the stored one, with its new revision. */
    function NextShadow(ops: seq<ChangeOp>): Shadow
      reads this`shadows
    {
      var previous := Previous(shadows, desired.deviceId);
      Revised(previous, ShadowAfter(previous, desired, 0, ops))
    }

    /** Stores the shadow the change set leads to. */
    method StoreShadow(ops: seq<ChangeOp>) returns (ok: bool)
      requires Valid() && run.pc == M.WriteShadow
      modifies this`clock, this`run, this`shadows
      ensures Valid() && run.strategy == old(run).strategy
      ensures run.pc == if ok then M.Done(M.SuccessStatus(run.strategy)) else M.Put(M.WShadowInDoubt)
      ensures ok ==> shadows == old(shadows)[desired.deviceId := old(NextShadow(ops))]
      ensures Follows(old(Previous(shadows, desired.deviceId)), old(NextShadow(ops)), desired.deviceId, ops)
      ensures shadows == old(shadows) || shadows == old(shadows)[desired.deviceId := old(NextShadow(ops))]
    {
      var previous := Previous(shadows, desired.deviceId);
      RevisedFollows(previous, desired, ops);
      var next := ApplyToShadow(ops, previous, desired, 0);
      var outcome := env.put(clock);
      clock := clock + 1;
      if !outcome.PutLost? {
        shadows := shadows[desired.deviceId := Revised(previous, next)];
      }
      ok := outcome.PutOk?;
      run := M.Onward(run, M.Checked(ok));
    }

    /** Brings the shadow up to date with the change set. */
    method UpdateShadow(ops: seq<ChangeOp>) returns (status: ApplyStatus)
      requires Valid() && run.pc == M.ReadShadow
      modifies this`clock, this`journal, this`record, this`run, this`shadows
      ensures Valid() && OnlyOwnRecord() && run.pc == M.Done(status)
      ensures status.Success? || status.SuccessWithWarning? ==> shadows == old(shadows)[desired.deviceId := old(NextShadow(ops))]
      ensures shadows == old(shadows) || ((status.Success? || status.SuccessWithWarning? || status.ApplyInDoubt?)
                                            && shadows == old(shadows)[desired.deviceId := old(NextShadow(ops))])
      ensures Follows(old(Previous(shadows, desired.deviceId)), old(NextShadow(ops)), desired.deviceId, ops)
      ensures !status.NoOpSuccess?
    {
      RevisedFollows(Previous(shadows, desired.deviceId), desired, ops);
      var ok := env.works(clock);
      clock := clock + 1;
      run := M.Onward(run, M.Checked(ok));
      if ok {
        ok := StoreShadow(ops);
      }
      if !ok {
        ShadowInDoubt();
        return ApplyInDoubt;
      }
      status := M.SuccessStatus(record.strategy);
    }

    /** Records the commit and brings the shadow up to date. */
    method FinishSuccessful(ops: seq<ChangeOp>) returns (status: ApplyStatus)
      requires Valid() && run.pc == M.Put(M.WCommitted)
      modifies this`clock, this`journal, this`record, this`run, this`shadows
      ensures Valid() && OnlyOwnRecord() && run.pc == M.Done(status)
      ensures status.Success? || status.SuccessWithWarning? ==> shadows == old(shadows)[desired.deviceId := old(NextShadow(ops))]
      ensures shadows == old(shadows) || ((status.Success? || status.SuccessWithWarning? || status.ApplyInDoubt?)
                                            && shadows == old(shadows)[desired.deviceId := old(NextShadow(ops))])
      ensures Follows(old(Previous(shadows, desired.deviceId)), old(NextShadow(ops)), desired.deviceId, ops)
      ensures !status.NoOpSuccess?
    {
      RevisedFollows(Previous(shadows, desired.deviceId), desired, ops);
      var ok := Advance(Committed, M.WCommitted);
      if !ok {
        return ApplyInDoubt;
      }
      status := UpdateShadow(ops);
    }

    /** Records how a failed apply ended. */
    method FinishFailed() returns (status: ApplyStatus)
      requires Valid() && run.pc == M.Put(M.WFinish)
      modifies this`clock, this`journal, this`record, this`run
      ensures Valid() && OnlyOwnRecord() && run.pc == M.Done(status)
      ensures !status.Success? && !status.SuccessWithWarning? && !status.NoOpSuccess?
    {
      var phase := FailedApplyPhase(record.phase);
      if !IsAllowed(record.phase, phase) {
        run := M.Onward(run, M.Wrote(M.PutOk));
        return ApplyInDoubt;
      }
      record := record.(phase := phase);
      var outcome := PutRecord(record);
      run := M.Onward(run, M.Wrote(outcome));
      assert run.mem == phase && run.strategy == record.strategy && run.allowDegraded == allowDegraded;
      status := StatusForFailedPhase(phase);
    }

    /** The journal writes before the first call. */
    method StartTransaction() returns (ok: bool)
      requires Valid() && run.pc == M.Put(M.WStarted)
      modifies this`clock, this`journal, this`record, this`run
      ensures Valid() && OnlyOwnRecord()
      ensures run.pc == if ok then M.Probe else M.Done(ApplyFailed)
    {
      SelfStepIsAllowed(record.phase);
      ok := Advance(record.phase, M.WStarted);
      if ok {
        ok := Advance(Preparing, M.WPreparing);
      }
    }

    /** The checks before anything is written: the lock, unresolved transactions of the device, drift. */
    method Admit() returns (refusal: Option<ApplyStatus>)
      requires Valid() && run.pc == M.WaitLock
      modifies this`clock, this`run
      ensures Valid() && run == old(run).(pc := if refusal.Some? then M.Done(refusal.value) else M.DryRun)
      ensures refusal.None? ==> !Blocks(journal, desired.deviceId) && clock == old(clock) + 3
      ensures refusal.Some? ==> refusal.value.ApplyFailed? || (refusal.value.ApplyInDoubt? && Blocks(journal, desired.deviceId))
      ensures var c := old(clock);
              refusal == if !env.works(c) || !env.works(c + 1) then Some(ApplyFailed)
                         else if Blocks(journal, desired.deviceId) then Some(ApplyInDoubt)
                         else if !env.works(c + 2) then Some(ApplyFailed) else None
    {
      var locked := env.works(clock);
      run := M.Onward(run, M.Checked(locked));
      if !locked {
        return Some(ApplyFailed);
      }
      var listed := env.works(clock + 1);
      if !listed {
        run := M.Onward(run, M.Gated(M.GateError));
        return Some(ApplyFailed);
      }
      if Blocks(journal, desired.deviceId) {
        run := M.Onward(run, M.Gated(M.Blocked));
        return Some(ApplyInDoubt);
      }
      run := M.Onward(run, M.Gated(M.Clear));
      var calm := env.works(clock + 2);
      run := M.Onward(run, M.Checked(calm));
      clock := clock + 3;
      refusal := if calm then None else Some(ApplyFailed);
    }

    method Compare(current: Shadow) returns (ops: seq<ChangeOp>)
      ensures ops == ChangeSet(desired, current)
    {
      ops := ComputeDiff(desired, current);
    }

    /** Compares the wanted state with what the device reports. */
    method DryRun() returns (plan: Option<seq<ChangeOp>>)
      requires Valid() && run.pc == M.DryRun
      modifies this`clock, this`run
      ensures Valid()
      ensures plan.None? ==> env.current(old(clock)).None? && run == old(run).(pc := M.Done(ApplyFailed))
      ensures plan.Some? ==> && env.current(old(clock)).Some? && plan.value == ChangeSet(desired, env.current(old(clock)).value)
                             && run == old(run).(pc := if plan.value == [] then M.Done(NoOpSuccess) else M.Put(M.WStarted))
    {
      var current := env.current(clock);
      clock := clock + 1;
      if current.None? {
        run := M.Onward(run, M.Planned(M.PlanError));
        return None;
      }
      var ops := Compare(current.value);
      run := M.Onward(run, M.Planned(if ops == [] then M.Unchanged else M.Changed));
      plan := Some(ops);
    }

    /** Everything before the first write: a change set to carry out, or the result. */
    method AdmitAndPlan() returns (plan: Option<seq<ChangeOp>>, status: ApplyStatus)
      requires Valid() && run.pc == M.WaitLock
      modifies this`clock, this`run
      ensures Valid()
      ensures plan.Some? ==> !Blocks(journal, desired.deviceId)
      ensures plan.Some? ==> env.current(old(clock) + 3).Some? && plan.value == ChangeSet(desired, env.current(old(clock) + 3).value)
      ensures run == old(run).(pc := if plan.Some? then M.Put(M.WStarted) else M.Done(status))
      ensures plan.None? ==> status.ApplyFailed? || status.NoOpSuccess? || status.ApplyInDoubt?
      ensures var c := old(clock);
              if !env.works(c) || !env.works(c + 1) then plan.None? && status == ApplyFailed
              else if Blocks(journal, desired.deviceId) then plan.None? && status == ApplyInDoubt
              else if !env.works(c + 2) || env.current(c + 3).None? then plan.None? && status == ApplyFailed
              else if ChangeSet(desired, env.current(c + 3).value) == [] then plan.None? && status == NoOpSuccess
              else plan.Some?
    {
      var refusal := Admit();
      if refusal.Some? {
        return None, refusal.value;
      }
      plan := DryRun();
      if plan.None? {
        status := ApplyFailed;
      } else if plan.value == [] {
        return None, NoOpSuccess;
      } else {
        status := ApplyFailed;
      }
    }

    /** Applies the wanted state to the endpoint. The result is that of a run of the machine over the same
        journal, so it tells the stored phase; on success the stored shadow is the change set applied to the
        previous one; the shadow is never anything but the old one or that one, and other shadows and the
        records of other transactions are never touched. */
    method ApplySingleEndpoint() returns (status: ApplyStatus, ops: seq<ChangeOp>)
      requires Valid() && run == M.Fresh(allowDegraded)
      modifies this`clock, this`journal, this`record, this`run, this`shadows
      ensures Valid() && OnlyOwnRecord() && run.pc == M.Done(status)
      ensures var c := old(clock);
              env.works(c) && env.works(c + 1) && Blocks(old(journal), desired.deviceId) ==> status == ApplyInDoubt
      ensures var c := old(clock);
              status.NoOpSuccess? <==>
                && env.works(c) && env.works(c + 1) && env.works(c + 2) && !Blocks(old(journal), desired.deviceId)
                && env.current(c + 3).Some? && ChangeSet(desired, env.current(c + 3).value) == []
      ensures Blocks(old(journal), desired.deviceId) || status.NoOpSuccess? ==>
                journal == old(journal) && shadows == old(shadows) && run.sent == []
      ensures status.Success? || status.SuccessWithWarning? ==>
                && tx in journal && journal[tx].phase.Committed? && M.CommitEvidence(run)
                && env.current(old(clock) + 3).Some? && ops == ChangeSet(desired, env.current(old(clock) + 3).value)
                && shadows == old(shadows)[desired.deviceId := old(NextShadow(ops))]
                && Follows(old(Previous(shadows, desired.deviceId)), shadows[desired.deviceId], desired.deviceId, ops)
      ensures shadows != old(shadows) ==>
                && (status.Success? || status.SuccessWithWarning? || status.ApplyInDoubt?)
                && shadows == old(shadows)[desired.deviceId := old(NextShadow(ops))]
      ensures tx in journal && M.NoFailedWrite(run.writes) ==> M.AgreesWith(status, journal[tx].phase)
      ensures M.Rollback in run.sent ==>
                && status == (if O.SaysClean(run.replies) then ApplyRolledBack else ApplyInDoubt) && tx in journal
                && (M.NoFailedWrite(run.writes) ==> journal[tx].phase == if O.SaysClean(run.replies) then RolledBack else InDoubt)
      ensures status.ApplyRolledBack? || (tx in journal && journal[tx].phase.RolledBack?) ==> O.SaysClean(run.replies)
      ensures status.Success? ==> run.strategy in {Some(ConfirmedCommit), Some(CandidateCommit)}
      ensures status.SuccessWithWarning? ==> allowDegraded && run.strategy in {Some(RunningRollbackOnError), Some(BestEffortCli)}
    {
      var plan;
      ops := [];
      plan, status := AdmitAndPlan();
      if plan.Some? {
        ops := plan.value;
        status := CarryOut(ops);
      }
      assert run.stored == if tx in journal then Some(journal[tx].phase) else None;
      DoneFacts(run);
      DoneByAnswers(run);
    }

    /** Carries out a change set that is not empty. */
    method CarryOut(ops: seq<ChangeOp>) returns (status: ApplyStatus)
      requires Valid() && run.pc == M.Put(M.WStarted)
      modifies this`clock, this`journal, this`record, this`run, this`shadows
      ensures Valid() && OnlyOwnRecord() && run.pc == M.Done(status)
      ensures status.Success? || status.SuccessWithWarning? ==> shadows == old(shadows)[desired.deviceId := old(NextShadow(ops))]
      ensures shadows == old(shadows) || ((status.Success? || status.SuccessWithWarning? || status.ApplyInDoubt?)
                                            && shadows == old(shadows)[desired.deviceId := old(NextShadow(ops))])
      ensures Follows(old(Previous(shadows, desired.deviceId)), old(NextShadow(ops)), desired.deviceId, ops)
      ensures !status.NoOpSuccess?
    {
      RevisedFollows(Previous(shadows, desired.deviceId), desired, ops);
      var ok := StartTransaction();
      if !ok {
        return ApplyFailed;
      }
      ok := ApplyChangedEndpoint();
      if ok {
        status := FinishSuccessful(ops);
      } else {
        status := FinishFailed();
      }
    }
  }

  /** What a finished run says about its result and the stored phase. */
  lemma DoneFacts(a: M.Apply)
    requires M.Reachable(a) && a.pc.Done?
    ensures a.pc.status.Success? || a.pc.status.SuccessWithWarning? ==> a.stored == Some(Committed) && M.CommitEvidence(a)
    ensures a.pc.status.NoOpSuccess? ==> a.stored.None? && a.sent == []
    ensures a.stored.Some? && M.NoFailedWrite(a.writes) ==> M.AgreesWith(a.pc.status, a.stored.value)
  {
    M.ReachableHasInv(a);
    M.ExtendWrites(a.writes, M.WFinish, M.PutOk);
  }

  /** What the answers to a finished run say about its result. */
  lemma DoneByAnswers(a: M.Apply)
    requires M.Reachable(a) && a.pc.Done?
    ensures M.Rollback in a.sent ==>
              && a.pc.status == (if O.SaysClean(a.replies) then ApplyRolledBack else ApplyInDoubt) && a.stored.Some?
              && (M.NoFailedWrite(a.writes) ==> a.stored == Some(if O.SaysClean(a.replies) then RolledBack else InDoubt))
    ensures a.pc.status.ApplyRolledBack? || a.stored == Some(RolledBack) ==> O.SaysClean(a.replies)
    ensures a.pc.status.Success? ==> a.strategy in {Some(ConfirmedCommit), Some(CandidateCommit)}
    ensures a.pc.status.SuccessWithWarning? ==>
              a.allowDegraded && a.strategy in {Some(RunningRollbackOnError), Some(BestEffortCli)}
  {
    M.ReachableHasInv(a);
    if M.Rollback in a.sent {
      O.RollbackAnswerDecides(a);
    }
    if a.pc.status.ApplyRolledBack? || a.stored == Some(RolledBack) {
      O.RolledBackNeedsEvidence(a);
    }
  }

  lemma SelfStepIsAllowed(p: TxPhase)
    ensures IsAllowed(p, p)
  {
  }
}
