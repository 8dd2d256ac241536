/** Why a record has the phase it has: in every run, each change of a stored phase has its evidence. */
module RunReasons {
  import opened Wrappers
  import opened TxPhases
  import opened Strategies
  import opened Journal
  import opened RecoveryOps
  import opened Interleaving
  import opened Isolation
  import opened ProtocolRuns
  import M = ApplyMachine
  import O = ApplyOutcomes

  /** A run with the action taken at each step. */
  ghost predicate Labelled(states: seq<System>, labels: seq<Label>) {
    && |states| == |labels| + 1 && Init(states[0])
    && forall i :: 0 <= i < |labels| ==> Enabled(states[i], labels[i]) && states[i + 1] == Next(states[i], labels[i])
  }

  lemma LabelledHasInv(states: seq<System>, labels: seq<Label>, n: nat)
    requires Labelled(states, labels) && n < |states|
    ensures Inv(states[n])
  {
    forall i | 0 <= i < |states| - 1 ensures Steps(states[i], states[i + 1]) {
      assert Enabled(states[i], labels[i]);
    }
    RunKeepsHistory(states, n);
  }

  predicate IsDue(p: TxPhase) { p !in {Committed, RolledBack, Failed, ForceResolved, InDoubt} }

  /** What the devices of a record say, and the phase that follows from it. */
  ghost predicate Reported(record: Record, envs: seq<DeviceEnv>, persisted: bool, phase: TxPhase) {
    && |envs| == |record.devices| && record.devices != [] && IsDue(record.phase)
    && phase in {Committed, RolledBack, InDoubt}
    && (phase.Committed? <==> persisted && forall env :: env in envs ==> HoldsChange(record, env))
    && (phase.RolledBack? <==> forall env :: env in envs ==> HoldsNothing(record, env))
  }

  // ---- The reasons ----

  /** An apply has written the record: Committed after the replies that prove a commit, RolledBack after its
      device has said so. */
  ghost predicate ByApply(s: System, l: Label, tx: TxId, now: Record) {
    && l.ApplyStep? && Enabled(s, l) && s.tasks[l.t].tx == tx
    && var b := M.Step(s.tasks[l.t].a, l.input);
    && b.stored == Some(now.phase) && now.phase !in {Recovering, ForceResolved}
    && (now.phase.Committed? ==> M.CommitEvidence(b)) && (now.phase.RolledBack? ==> O.SaysClean(b.replies))
  }

  /** Recovery has taken the record up. */
  ghost predicate ByTakingUp(s: System, l: Label, tx: TxId, now: Record) {
    && l.Store? && l.t in s.tasks && s.tasks[l.t].RecoverTask?
    && tx in s.journal && IsDue(s.journal[tx].phase) && now == s.journal[tx].(phase := Recovering)
  }

  /** An operator has resolved a record in doubt. */
  ghost predicate ByHand(s: System, l: Label, tx: TxId, now: Record) {
    && l.Store? && l.t in s.tasks && s.tasks[l.t].ResolveTask?
    && tx in s.journal && s.journal[tx].phase.InDoubt? && now == s.journal[tx].(phase := ForceResolved)
  }

  /** At step m the task asked the devices of the record, and the phase is what they reported. */
  ghost predicate AskedAt(states: seq<System>, labels: seq<Label>, m: nat, t: TaskId, tx: TxId, now: Record)
    requires |states| == |labels| + 1
  {
    && m < |labels| && labels[m].Ask? && labels[m].t == t && t in states[m].tasks
    && var work := WorkOf(states[m].tasks[t]);
    && work.Asking? && work.tx == tx && now == work.record.(phase := now.phase)
    && Reported(work.record, labels[m].envs, labels[m].persisted, now.phase)
  }

  /** Recovery has concluded as the devices reported. */
  ghost predicate ByReports(states: seq<System>, labels: seq<Label>, n: nat, tx: TxId, now: Record)
    requires |states| == |labels| + 1 && n < |labels|
  {
    && labels[n].Conclude? && tx in states[n].journal && states[n].journal[tx].phase.Recovering?
    && exists m: nat :: m < n && AskedAt(states, labels, m, labels[n].t, tx, now)
  }

  ghost predicate HasReason(states: seq<System>, labels: seq<Label>, n: nat, tx: TxId)
    requires |states| == |labels| + 1 && n < |labels| && tx in states[n + 1].journal
  {
    var now := states[n + 1].journal[tx];
    || ByApply(states[n], labels[n], tx, now)
    || ByTakingUp(states[n], labels[n], tx, now)
    || ByHand(states[n], labels[n], tx, now)
    || ByReports(states, labels, n, tx, now)
  }

  // ---- Applies tell what they were answered ----

  ghost predicate AllTold(s: System) {
    forall t :: t in s.tasks && s.tasks[t].ApplyTask? ==> O.Told(s.tasks[t].a)
  }

  lemma OwnStepIsTold(s: System, l: Label)
    requires Inv(s) && AllTold(s) && Enabled(s, l) && l.ApplyStep?
    ensures O.Told(M.Step(s.tasks[l.t].a, l.input))
  {
    assert TaskOk(s, l.t);
    O.StepKeepsTold(s.tasks[l.t].a, l.input);
  }

  /** Only a start and its own steps change an apply. */
  lemma OwnApplyAfter(s: System, l: Label)
    requires Enabled(s, l) && !l.Crash? && l.t in Next(s, l).tasks && Next(s, l).tasks[l.t].ApplyTask?
    ensures || (l.SpawnApply? && Next(s, l).tasks[l.t].a == M.Fresh(l.allowDegraded))
            || (l.ApplyStep? && Next(s, l).tasks[l.t].a == M.Step(s.tasks[l.t].a, l.input))
  {
  }

  lemma StepKeepsAllTold(s: System, l: Label)
    requires Inv(s) && AllTold(s) && Enabled(s, l)
    ensures AllTold(Next(s, l))
  {
    var s' := Next(s, l);
    forall t | t in s'.tasks && s'.tasks[t].ApplyTask? ensures O.Told(s'.tasks[t].a) {
      if l.Crash? {
      } else if l.t != t {
        OtherTasksStay(s, l, t);
      } else {
        OwnApplyAfter(s, l);
        if l.ApplyStep? {
          OwnStepIsTold(s, l);
        }
      }
    }
  }

  lemma {:induction false} RunIsTold(states: seq<System>, labels: seq<Label>, n: nat)
    requires Labelled(states, labels) && n < |states|
    ensures AllTold(states[n])
  {
    if n > 0 {
      RunIsTold(states, labels, n - 1);
      LabelledHasInv(states, labels, n - 1);
      StepKeepsAllTold(states[n - 1], labels[n - 1]);
    }
  }

  // ---- Conclusions go back to reports ----

  /** A task about to conclude has asked, or asks in this step. */
  lemma ConcludingComesFromAsking(s: System, l: Label, t: TaskId)
    requires Inv(s) && Enabled(s, l) && t in Next(s, l).tasks && WorkOf(Next(s, l).tasks[t]).Concluding?
    ensures t in s.tasks
    ensures || WorkOf(s.tasks[t]) == WorkOf(Next(s, l).tasks[t])
            || (&& l.Ask? && l.t == t && WorkOf(s.tasks[t]).Asking?
                && WorkOf(Next(s, l).tasks[t])
                   == Concluding(WorkOf(s.tasks[t]).tx, WorkOf(s.tasks[t]).record,
                                 Resolution(WorkOf(s.tasks[t]).record, ActionFor(WorkOf(s.tasks[t]).record.phase), l.envs, l.persisted)))
  {
    if l.Crash? {
    } else if l.t != t {
      OtherTasksStay(s, l, t);
    } else {
      OwnConclusionComesFromAsking(s, l);
    }
  }

  lemma OwnConclusionComesFromAsking(s: System, l: Label)
    requires Enabled(s, l) && !l.Crash? && l.t in Next(s, l).tasks && WorkOf(Next(s, l).tasks[l.t]).Concluding?
    ensures l.Ask?
  {
  }

  lemma AskingIsReported(s: System, t: TaskId, envs: seq<DeviceEnv>, persisted: bool)
    requires Inv(s) && Enabled(s, Ask(t, envs, persisted))
    ensures var work := WorkOf(s.tasks[t]);
            Reported(work.record, envs, persisted, Resolution(work.record, ActionFor(work.record.phase), envs, persisted))
  {
    assert TaskOk(s, t);
    var work := WorkOf(s.tasks[t]);
    assert work.record.devices == s.journal[work.tx].devices;
    ResolutionByPhase(work.record, envs, persisted);
  }

  lemma {:induction false} ConclusionsAreReported(states: seq<System>, labels: seq<Label>, n: nat, t: TaskId)
    requires Labelled(states, labels) && n < |states| && t in states[n].tasks && WorkOf(states[n].tasks[t]).Concluding?
    ensures var work := WorkOf(states[n].tasks[t]);
            exists m: nat :: m < n && AskedAt(states, labels, m, t, work.tx, work.record.(phase := work.phase))
  {
    if n > 0 {
      var s, l := states[n - 1], labels[n - 1];
      LabelledHasInv(states, labels, n - 1);
      ConcludingComesFromAsking(s, l, t);
      var work := WorkOf(states[n].tasks[t]);
      if WorkOf(s.tasks[t]) == work {
        ConclusionsAreReported(states, labels, n - 1, t);
      } else {
        AskingIsReported(s, t, l.envs, l.persisted);
        assert AskedAt(states, labels, n - 1, t, work.tx, work.record.(phase := work.phase));
      }
    }
  }

  // ---- Every change ----

  /** What an apply has stored, it has evidence for. */
  lemma StoredHasEvidence(a: M.Apply)
    requires M.Inv(a) && O.Told(a) && a.stored.Some?
    ensures a.stored.value.Committed? ==> M.CommitEvidence(a)
    ensures a.stored.value.RolledBack? ==> O.SaysClean(a.replies)
  {
  }

  lemma TargetIsAnApplyPhase(a: M.Apply)
    requires M.Inv(a) && a.pc.Put?
    ensures M.Target(a.pc.w, a.mem) !in {Recovering, ForceResolved}
  {
  }

  lemma ApplyStoresItsPhases(s: System, l: Label)
    requires Inv(s) && Enabled(s, l) && l.ApplyStep? && Lands(s.tasks[l.t].a, l.input)
    ensures s.tasks[l.t].tx in Next(s, l).journal && Next(s, l).journal[s.tasks[l.t].tx].phase !in {Recovering, ForceResolved}
  {
    assert TaskOk(s, l.t);
    TargetIsAnApplyPhase(s.tasks[l.t].a);
  }

  lemma ApplyStoresWithEvidence(s: System, l: Label)
    requires Inv(s) && AllTold(s) && Enabled(s, l) && l.ApplyStep? && Lands(s.tasks[l.t].a, l.input)
    ensures ByApply(s, l, s.tasks[l.t].tx, Next(s, l).journal[s.tasks[l.t].tx])
  {
    ApplyStoresItsPhases(s, l);
    OwnStepIsTold(s, l);
    StepHasInv(s, l.t, l.input);
    ApplyKnowsTheJournal(s, l.t, l.input);
    StoredHasEvidence(M.Step(s.tasks[l.t].a, l.input));
  }

  lemma WorkIsOnARecord(s: System, l: Label)
    requires Inv(s) && Enabled(s, l) && (l.Store? || l.Conclude?)
    ensures WorkOf(s.tasks[l.t]).tx in s.journal
  {
    assert TaskOk(s, l.t);
  }

  /** A record is changed or made only by a task that writes it. */
  lemma ChangeIsWritten(s: System, l: Label, tx: TxId)
    requires Inv(s) && Enabled(s, l) && tx in Next(s, l).journal
    requires tx in s.journal ==> Next(s, l).journal[tx] != s.journal[tx]
    ensures WritesFor(s, l, tx) && (tx !in s.journal ==> l.ApplyStep?)
  {
    if l.Store? || l.Conclude? {
      WorkIsOnARecord(s, l);
    }
    if tx in s.journal {
      OnlyTheHolderWrites(s, l, tx);
    }
  }

  lemma StoreHasAReason(s: System, l: Label, tx: TxId)
    requires Inv(s) && Enabled(s, l) && l.Store? && WritesFor(s, l, tx)
    ensures tx in s.journal && tx in Next(s, l).journal
    ensures ByTakingUp(s, l, tx, Next(s, l).journal[tx]) || ByHand(s, l, tx, Next(s, l).journal[tx])
  {
    assert TaskOk(s, l.t);
  }

  lemma ConclusionHasAReason(states: seq<System>, labels: seq<Label>, n: nat, tx: TxId)
    requires Labelled(states, labels) && n < |labels| && labels[n].Conclude? && WritesFor(states[n], labels[n], tx)
    ensures tx in states[n + 1].journal && ByReports(states, labels, n, tx, states[n + 1].journal[tx])
  {
    LabelledHasInv(states, labels, n);
    assert TaskOk(states[n], labels[n].t);
    ConclusionsAreReported(states, labels, n, labels[n].t);
  }

  /** Every change of a record, and every new record, has its reason. */
  lemma ChangeHasAReason(states: seq<System>, labels: seq<Label>, n: nat, tx: TxId)
    requires Labelled(states, labels) && n < |labels| && tx in states[n + 1].journal
    requires tx in states[n].journal ==> states[n + 1].journal[tx] != states[n].journal[tx]
    ensures HasReason(states, labels, n, tx)
  {
    LabelledHasInv(states, labels, n);
    RunIsTold(states, labels, n);
    ChangeIsWritten(states[n], labels[n], tx);
    if labels[n].ApplyStep? {
      ApplyStoresWithEvidence(states[n], labels[n]);
    } else if labels[n].Store? {
      StoreHasAReason(states[n], labels[n], tx);
    } else {
      ConclusionHasAReason(states, labels, n, tx);
    }
  }

  /** The record has the phase after the step, and had it not before. */
  ghost predicate GetsPhase(states: seq<System>, m: nat, tx: TxId, phase: TxPhase) {
    && m + 1 < |states| && tx in states[m + 1].journal && states[m + 1].journal[tx].phase == phase
    && (tx in states[m].journal ==> states[m].journal[tx].phase != phase)
  }

  /** In every run, with any number of tasks, abandoned tasks and crashes: whatever phase a record has that it
      did not have at the start, it got at a step that had a reason for it. */
  lemma {:induction false} EveryPhaseHasAReason(states: seq<System>, labels: seq<Label>, n: nat, tx: TxId)
    requires Labelled(states, labels) && n < |states| && tx in states[n].journal
    requires tx in states[0].journal ==> states[0].journal[tx].phase != states[n].journal[tx].phase
    ensures exists m: nat :: m < n && GetsPhase(states, m, tx, states[n].journal[tx].phase) && HasReason(states, labels, m, tx)
  {
    var phase := states[n].journal[tx].phase;
    var m := n - 1;
    if tx in states[m].journal && states[m].journal[tx].phase == phase {
      EveryPhaseHasAReason(states, labels, m, tx);
    } else {
      ChangeHasAReason(states, labels, m, tx);
      assert GetsPhase(states, m, tx, phase);
    }
  }

  // ---- Recovery left to itself ----

  /** A recovery takes up an unresolved record that is not in doubt and meets its gate; an operator takes up one
      in doubt. Anything else is left as it is. */
  ghost predicate TakesUp(task: Task, record: Record, go: bool) {
    match task
    case RecoverTask(_, gate, _) =>
      && IsDue(record.phase)
      && (gate.TimedOutConfirmedCommit? ==>
            go && record.strategy == Some(ConfirmedCommit) && record.phase in {Committing, Verifying, FinalConfirming, Recovering})
    case ResolveTask(_) => record.phase.InDoubt? && go
    case _ => false
  }

  lemma ReadTakesUpExactlyTheDue(s: System, t: TaskId, go: bool)
    requires Inv(s) && Enabled(s, Read(t, go))
    ensures var tx, s' := WorkOf(s.tasks[t]).tx, Next(s, Read(t, go));
            && tx in s.journal && s'.journal == s.journal
            && if TakesUp(s.tasks[t], s.journal[tx], go)
               then t in s'.tasks && WorkOf(s'.tasks[t]) == Storing(tx, s.journal[tx]) && s'.held == s.held
               else (t in s'.tasks <==> s.tasks[t].RecoverTask?) && (forall d :: d in s'.held ==> s'.held[d] != t)
  {
    assert TaskOk(s, t);
  }

  ghost predicate CanRecover(s: System, t: TaskId, go: bool, envs: seq<DeviceEnv>) {
    && Enabled(s, Read(t, go)) && s.tasks[t].RecoverTask? && WorkOf(s.tasks[t]).tx in s.journal
    && TakesUp(s.tasks[t], s.journal[WorkOf(s.tasks[t]).tx], go)
    && |envs| == |s.journal[WorkOf(s.tasks[t]).tx].devices|
  }

  /** One action, and then the other. */
  ghost predicate TwoSteps(s: System, first: Label, second: Label, s': System) {
    Enabled(s, first) && Enabled(Next(s, first), second) && s' == Next(Next(s, first), second)
  }

  lemma StoreAnnounces(s: System, t: TaskId)
    requires Enabled(s, Store(t, M.PutOk)) && s.tasks[t].RecoverTask?
    ensures var s', work := Next(s, Store(t, M.PutOk)), WorkOf(s.tasks[t]);
            && s'.journal == s.journal[work.tx := work.record.(phase := Recovering)] && t in s'.tasks
            && s'.tasks[t].RecoverTask? && s'.tasks[t].work == Asking(work.tx, work.record)
  {
  }

  lemma AskGathers(s: System, t: TaskId, envs: seq<DeviceEnv>, persisted: bool)
    requires Inv(s) && Enabled(s, Ask(t, envs, persisted)) && s.tasks[t].RecoverTask?
    ensures var s', work := Next(s, Ask(t, envs, persisted)), WorkOf(s.tasks[t]);
            && s'.journal == s.journal && t in s'.tasks && s'.tasks[t].RecoverTask?
            && var concluding := s'.tasks[t].work;
            && concluding.Concluding? && concluding.tx == work.tx && concluding.record == work.record
            && Reported(work.record, envs, persisted, concluding.phase)
  {
    AskingIsReported(s, t, envs, persisted);
  }

  lemma ConcludeWrites(s: System, t: TaskId)
    requires Enabled(s, Conclude(t, M.PutOk)) && s.tasks[t].RecoverTask?
    ensures var s', work := Next(s, Conclude(t, M.PutOk)), WorkOf(s.tasks[t]);
            && s'.journal == s.journal[work.tx := work.record.(phase := work.phase)]
            && forall d :: d in s'.held ==> s'.held[d] != t
  {
  }

  lemma RecoveryTakesUp(s: System, t: TaskId, go: bool, envs: seq<DeviceEnv>) returns (s': System)
    requires Inv(s) && CanRecover(s, t, go, envs)
    ensures TwoSteps(s, Read(t, go), Store(t, M.PutOk), s') && Inv(s')
    ensures var tx := WorkOf(s.tasks[t]).tx; var record := s.journal[tx];
            && s'.journal == s.journal[tx := record.(phase := Recovering)]
            && t in s'.tasks && s'.tasks[t].RecoverTask? && s'.tasks[t].work == Asking(tx, record)
  {
    ReadTakesUpExactlyTheDue(s, t, go);
    StepKeepsInv(s, Read(t, go));
    var s1 := Next(s, Read(t, go));
    assert s1.tasks[t].RecoverTask?;
    StoreAnnounces(s1, t);
    StepKeepsInv(s1, Store(t, M.PutOk));
    s' := Next(s1, Store(t, M.PutOk));
  }

  lemma RecoveryConcludes(s: System, t: TaskId, envs: seq<DeviceEnv>, persisted: bool) returns (s': System)
    requires Inv(s) && Enabled(s, Ask(t, envs, persisted)) && s.tasks[t].RecoverTask?
    ensures TwoSteps(s, Ask(t, envs, persisted), Conclude(t, M.PutOk), s')
    ensures var Asking(tx, record) := WorkOf(s.tasks[t]);
            && tx in s'.journal && Reported(record, envs, persisted, s'.journal[tx].phase)
            && s'.journal == s.journal[tx := record.(phase := s'.journal[tx].phase)]
    ensures forall d :: d in s'.held ==> s'.held[d] != t
  {
    AskGathers(s, t, envs, persisted);
    var s1 := Next(s, Ask(t, envs, persisted));
    ConcludeWrites(s1, t);
    s' := Next(s1, Conclude(t, M.PutOk));
  }

  /** A recovery that holds the locks of a record that is due, and is left to itself, announces itself, gives the
      record the phase its devices report, changes no other record, and gives the locks back. */
  lemma RecoverySettles(s: System, t: TaskId, go: bool, envs: seq<DeviceEnv>, persisted: bool)
    returns (announced: System, settled: System)
    requires Inv(s) && CanRecover(s, t, go, envs)
    ensures TwoSteps(s, Read(t, go), Store(t, M.PutOk), announced)
    ensures TwoSteps(announced, Ask(t, envs, persisted), Conclude(t, M.PutOk), settled)
    ensures var tx := WorkOf(s.tasks[t]).tx; var record := s.journal[tx];
            && announced.journal == s.journal[tx := record.(phase := Recovering)]
            && tx in settled.journal && Reported(record, envs, persisted, settled.journal[tx].phase)
            && settled.journal == s.journal[tx := record.(phase := settled.journal[tx].phase)]
    ensures forall d :: d in settled.held ==> settled.held[d] != t
  {
    announced := RecoveryTakesUp(s, t, go, envs);
    settled := RecoveryConcludes(announced, t, envs, persisted);
  }
}
