/** Whole runs of the protocol: any number of tasks, abandoned tasks and crashes. */
module ProtocolRuns {
  import opened TxPhases
  import opened Journal
  import opened RecoveryOps
  import opened Interleaving
  import opened Isolation
  import M = ApplyMachine

  ghost predicate CommitSent(log: seq<Event>, tx: TxId) {
    exists i :: 0 <= i < |log| && log[i].tx == tx && log[i].call == FromApply(M.Commit)
  }

  /** Every call on record was announced by a phase the journal has kept or left behind. */
  ghost predicate Announced(s: System) {
    forall i :: 0 <= i < |s.log| ==>
      && s.log[i].tx in s.journal
      && (s.log[i].call.FromApply? ==> Rank(M.Announced(s.log[i].call.rpc)) <= Rank(s.journal[s.log[i].tx].phase))
  }

  ghost predicate Discards(work: Work) {
    (work.Asking? || work.Concluding?) && ActionFor(work.record.phase).DiscardPreparedChanges?
  }

  /** Prepared changes are discarded only where no commit was ever sent. */
  ghost predicate DiscardsSafely(s: System) {
    forall t :: t in s.tasks && Discards(WorkOf(s.tasks[t])) ==> !CommitSent(s.log, WorkOf(s.tasks[t]).tx)
  }

  ghost predicate EndedOk(s: System) {
    forall i :: 0 <= i < |s.ended| ==> M.Inv(s.ended[i].1) && s.ended[i].1.pc.Done?
  }

  ghost predicate History(s: System) {
    Inv(s) && Announced(s) && DiscardsSafely(s) && EndedOk(s)
  }

  /** Just before a call of an apply goes out, the journal holds the phase that announces it,
      and nothing else unresolved names the device. */
  lemma CallsAreAnnouncedAndAlone(s: System, t: TaskId)
    requires Inv(s) && Enabled(s, ApplyStep(t, M.Sent)) && s.tasks[t].a.pc.Call?
    ensures var task := s.tasks[t];
            && task.tx in s.journal && s.journal[task.tx].phase == M.Announced(task.a.pc.rpc)
            && Alone(s.journal, task.device, task.tx)
            && Next(s, ApplyStep(t, M.Sent)).log == s.log + [Event(task.tx, task.device, FromApply(task.a.pc.rpc))]
  {
    assert TaskOk(s, t);
    M.CallIsAnnounced(s.tasks[t].a);
  }

  /** Recovery talks to devices only while the journal holds Recovering. */
  lemma RecoveryIsAnnounced(s: System, t: TaskId)
    requires Inv(s) && t in s.tasks && WorkOf(s.tasks[t]).Asking?
    ensures var tx := WorkOf(s.tasks[t]).tx; tx in s.journal && s.journal[tx].phase == Recovering
  {
    assert TaskOk(s, t);
  }

  /** The record another task is working on under its locks. */
  ghost predicate WorksOn(task: Task, tx: TxId) {
    match task
    case ApplyTask(x, _, a) => x == tx && a.stored.Some?
    case _ => var w := task.work; (w.Reading? || w.Storing? || w.Asking? || w.Concluding?) && w.tx == tx
  }

  /** No two tasks work on one record: recovery never acts on a record a live apply drives. */
  lemma OneWorkerPerRecord(s: System, t: TaskId, u: TaskId, tx: TxId)
    requires Inv(s) && t in s.tasks && u in s.tasks && tx in s.journal
    requires WorksOn(s.tasks[t], tx) && WorksOn(s.tasks[u], tx)
    ensures t == u
  {
    assert TaskOk(s, t) && TaskOk(s, u);
    var d := s.journal[tx].devices[0];
    assert d in s.journal[tx].devices;
    assert d in s.held && s.held[d] == t;
    assert s.held[d] == u;
  }

  /** Only the send step of an apply and the ask step of recovery add to the log. */
  lemma LogGrows(s: System, l: Label)
    requires Inv(s) && Enabled(s, l)
    ensures s.log <= Next(s, l).log
    ensures forall i :: |s.log| <= i < |Next(s, l).log| ==>
              var e := Next(s, l).log[i];
              && e.tx in s.journal
              && (e.call.FromApply? ==> && l.ApplyStep? && s.tasks[l.t].tx == e.tx && WorksOn(s.tasks[l.t], e.tx)
                                        && s.journal[e.tx].phase == M.Announced(e.call.rpc))
  {
    if l.ApplyStep? {
      if s.tasks[l.t].a.pc.Call? {
        assert l.input.Sent?;
        CallsAreAnnouncedAndAlone(s, l.t);
        assert TaskOk(s, l.t);
      }
    } else if l.Ask? {
      assert TaskOk(s, l.t);
    }
  }

  lemma StepKeepsAnnounced(s: System, l: Label)
    requires Inv(s) && Announced(s) && Enabled(s, l)
    ensures Announced(Next(s, l))
  {
    LogGrows(s, l);
    StepKeepsRank(s, l);
    AnnouncedAfter(s, Next(s, l));
  }

  lemma StepKeepsRank(s: System, l: Label)
    requires Inv(s) && Enabled(s, l)
    ensures forall tx :: tx in s.journal ==> KeepsRank(s, Next(s, l), tx)
  {
    forall tx | tx in s.journal ensures KeepsRank(s, Next(s, l), tx) {
      RecordKeepsRank(s, l, tx);
    }
  }

  lemma RecordKeepsRank(s: System, l: Label, tx: TxId)
    requires Inv(s) && Enabled(s, l) && tx in s.journal
    ensures KeepsRank(s, Next(s, l), tx)
  {
    PhaseMovesForward(s, l, tx);
    RankNeverFalls(s.journal[tx].phase, Next(s, l).journal[tx].phase);
  }

  lemma RankNeverFalls(p: TxPhase, q: TxPhase)
    requires IsAllowed(p, q) || (p == RollingBack && q == Failed)
    ensures p == q || Rank(p) < Rank(q)
  {
  }

  ghost predicate KeepsRank(s: System, s': System, tx: TxId) {
    tx in s.journal && tx in s'.journal && Rank(s.journal[tx].phase) <= Rank(s'.journal[tx].phase)
  }

  lemma AnnouncedAfter(s: System, s': System)
    requires Announced(s) && s.log <= s'.log
    requires forall i :: |s.log| <= i < |s'.log| ==>
               && s'.log[i].tx in s.journal
               && (s'.log[i].call.FromApply? ==> s.journal[s'.log[i].tx].phase == M.Announced(s'.log[i].call.rpc))
    requires forall tx :: tx in s.journal ==> KeepsRank(s, s', tx)
    ensures Announced(s')
  {
    forall i | 0 <= i < |s'.log|
      ensures && s'.log[i].tx in s'.journal
              && (s'.log[i].call.FromApply? ==> Rank(M.Announced(s'.log[i].call.rpc)) <= Rank(s'.journal[s'.log[i].tx].phase))
    {
      if i < |s.log| {
        assert s'.log[i] == s.log[i];
      }
      assert KeepsRank(s, s', s'.log[i].tx);
    }
  }

  lemma StepKeepsDiscardsSafely(s: System, l: Label)
    requires Inv(s) && Announced(s) && DiscardsSafely(s) && Enabled(s, l)
    ensures DiscardsSafely(Next(s, l))
  {
    var s' := Next(s, l);
    forall t | t in s'.tasks && Discards(WorkOf(s'.tasks[t])) ensures !CommitSent(s'.log, WorkOf(s'.tasks[t]).tx) {
      DiscardHadToBegin(s, l, t);
      NoCommitBefore(s, t);
      LogGrows(s, l);
      NoCommitAfter(s, l, t);
    }
  }

  /** A task that discards was discarding the same record already, or was about to begin. */
  lemma DiscardHadToBegin(s: System, l: Label, t: TaskId)
    requires Inv(s) && Enabled(s, l)
    requires t in Next(s, l).tasks && Discards(WorkOf(Next(s, l).tasks[t]))
    ensures t in s.tasks && AboutToDiscard(WorkOf(s.tasks[t])) && WorkOf(s.tasks[t]).tx == WorkOf(Next(s, l).tasks[t]).tx
  {
    if l.Crash? {
    } else if l.t != t {
      OtherTasksStay(s, l, t);
    } else {
      OwnDiscardHadToBegin(s, l);
    }
  }

  lemma OtherTasksStay(s: System, l: Label, t: TaskId)
    requires Enabled(s, l) && !l.Crash? && l.t != t
    ensures t in Next(s, l).tasks <==> t in s.tasks
    ensures t in s.tasks ==> Next(s, l).tasks[t] == s.tasks[t]
  {
  }

  lemma OwnDiscardHadToBegin(s: System, l: Label)
    requires Enabled(s, l) && !l.Crash?
    requires l.t in Next(s, l).tasks && Discards(WorkOf(Next(s, l).tasks[l.t]))
    ensures l.t in s.tasks && AboutToDiscard(WorkOf(s.tasks[l.t]))
    ensures WorkOf(s.tasks[l.t]).tx == WorkOf(Next(s, l).tasks[l.t]).tx
  {
  }

  ghost predicate AboutToDiscard(work: Work) {
    || Discards(work)
    || (work.Storing? && ActionFor(work.record.phase).DiscardPreparedChanges?)
  }

  lemma NoCommitBefore(s: System, t: TaskId)
    requires Inv(s) && Announced(s) && DiscardsSafely(s) && t in s.tasks && AboutToDiscard(WorkOf(s.tasks[t]))
    ensures !CommitSent(s.log, WorkOf(s.tasks[t]).tx)
  {
    assert TaskOk(s, t);
  }

  lemma NoCommitAfter(s: System, l: Label, t: TaskId)
    requires Inv(s) && Enabled(s, l) && t in s.tasks && AboutToDiscard(WorkOf(s.tasks[t]))
    requires !CommitSent(s.log, WorkOf(s.tasks[t]).tx)
    ensures !CommitSent(Next(s, l).log, WorkOf(s.tasks[t]).tx)
  {
    var tx, log' := WorkOf(s.tasks[t]).tx, Next(s, l).log;
    LogGrows(s, l);
    forall i | 0 <= i < |log'| && log'[i].tx == tx ensures log'[i].call != FromApply(M.Commit) {
      if |s.log| <= i && log'[i].call.FromApply? {
        assert WorksOn(s.tasks[l.t], tx);
        assert TaskOk(s, t);
        OneWorkerPerRecord(s, l.t, t, tx);
      }
    }
  }

  /** An apply is put on record when it ends, in its last state. */
  lemma OnlyApplyStepsEnd(s: System, l: Label)
    requires Enabled(s, l)
    ensures Next(s, l).ended == s.ended
            || (l.ApplyStep? && Next(s, l).ended == s.ended + [(s.tasks[l.t].tx, M.Step(s.tasks[l.t].a, l.input))]
                && M.Step(s.tasks[l.t].a, l.input).pc.Done?)
  {
  }

  lemma StepKeepsEndedOk(s: System, l: Label)
    requires Inv(s) && EndedOk(s) && Enabled(s, l)
    ensures EndedOk(Next(s, l))
  {
    OnlyApplyStepsEnd(s, l);
    if l.ApplyStep? {
      assert TaskOk(s, l.t);
      M.StepKeepsInv(s.tasks[l.t].a, l.input);
    }
  }

  lemma StepKeepsHistory(s: System, l: Label)
    requires History(s) && Enabled(s, l)
    ensures History(Next(s, l))
  {
    StepKeepsInv(s, l);
    StepKeepsAnnounced(s, l);
    StepKeepsDiscardsSafely(s, l);
    StepKeepsEndedOk(s, l);
  }

  // ---- Runs ----

  ghost predicate Steps(s: System, s': System) {
    exists l :: Enabled(s, l) && s' == Next(s, l)
  }

  /** A run: a start, then any enabled actions in any order. */
  ghost predicate Run(states: seq<System>) {
    && states != [] && Init(states[0])
    && forall i {:trigger Steps(states[i], states[i + 1])} ::
         0 <= i < |states| - 1 ==> Steps(states[i], states[i + 1])
  }

  lemma {:induction false} RunKeepsHistory(states: seq<System>, n: nat)
    requires Run(states) && n < |states|
    ensures History(states[n])
  {
    if n > 0 {
      var m := n - 1;
      RunKeepsHistory(states, m);
      assert Steps(states[m], states[m + 1]);
      var l :| Enabled(states[m], l) && states[m + 1] == Next(states[m], l);
      StepKeepsHistory(states[m], l);
    }
  }

  /** Isolation, in every state of every run: a device is named by at most one transaction
      needing recovery; a device being driven has no other unresolved transaction; and no record
      has two workers. */
  lemma RunsAreIsolated(states: seq<System>, n: nat)
    requires Run(states) && n < |states|
    ensures var s := states[n];
            && Isolated(s.journal)
            && (forall t :: t in s.tasks && s.tasks[t].ApplyTask? && s.tasks[t].a.pc.Call? ==>
                  Alone(s.journal, s.tasks[t].device, s.tasks[t].tx))
            && (forall t, u, tx {:trigger WorksOn(s.tasks[t], tx), WorksOn(s.tasks[u], tx)} ::
                  t in s.tasks && u in s.tasks && tx in s.journal && WorksOn(s.tasks[t], tx) && WorksOn(s.tasks[u], tx) ==> t == u)
  {
    var s := states[n];
    RunKeepsHistory(states, n);
    forall t | t in s.tasks && s.tasks[t].ApplyTask? && s.tasks[t].a.pc.Call?
      ensures Alone(s.journal, s.tasks[t].device, s.tasks[t].tx)
    {
      assert TaskOk(s, t);
    }
    forall t, u, tx | t in s.tasks && u in s.tasks && tx in s.journal && WorksOn(s.tasks[t], tx) && WorksOn(s.tasks[u], tx)
      ensures t == u
    {
      OneWorkerPerRecord(s, t, u, tx);
    }
  }

  /** Write-ahead, in every state of every run: a transaction for which recovery chooses, or has
      chosen, to discard prepared changes has had no Commit sent. */
  lemma DiscardOnlyWithoutCommit(states: seq<System>, n: nat, tx: TxId)
    requires Run(states) && n < |states|
    ensures var s := states[n];
            && (tx in s.journal && ActionFor(s.journal[tx].phase).DiscardPreparedChanges? ==> !CommitSent(s.log, tx))
            && (forall t :: t in s.tasks && Discards(WorkOf(s.tasks[t])) && WorkOf(s.tasks[t]).tx == tx ==> !CommitSent(s.log, tx))
  {
    RunKeepsHistory(states, n);
  }

  /** The phases a transaction shows from one state of a run to a later one. */
  ghost function Phases(states: seq<System>, from: nat, to: nat, tx: TxId): (ps: seq<TxPhase>)
    requires from <= to <= |states| && forall i :: from <= i < to ==> tx in states[i].journal
    ensures |ps| == to - from && forall i :: 0 <= i < |ps| ==> ps[i] == states[from + i].journal[tx].phase
  {
    seq(to - from, i requires 0 <= i < to - from => states[from + i].journal[tx].phase)
  }

  predicate Forward(p: TxPhase, q: TxPhase) {
    IsAllowed(p, q) || (p.RollingBack? && q.Failed?)
  }

  lemma {:induction false} RecordStays(states: seq<System>, from: nat, n: nat, tx: TxId)
    requires Run(states) && from <= n < |states| && tx in states[from].journal
    ensures tx in states[n].journal
  {
    if from < n {
      RecordStays(states, from, n - 1, tx);
      RecordGoesForward(states, n - 1, tx);
    }
  }

  lemma RecordGoesForward(states: seq<System>, m: nat, tx: TxId)
    requires Run(states) && m + 1 < |states| && tx in states[m].journal
    ensures tx in states[m + 1].journal
    ensures Forward(states[m].journal[tx].phase, states[m + 1].journal[tx].phase)
  {
    RunKeepsHistory(states, m);
    assert Steps(states[m], states[m + 1]);
    StepGoesForward(states[m], states[m + 1], tx);
  }

  lemma StepGoesForward(s: System, s': System, tx: TxId)
    requires Inv(s) && Steps(s, s') && tx in s.journal
    ensures tx in s'.journal && Forward(s.journal[tx].phase, s'.journal[tx].phase)
  {
    var l :| Enabled(s, l) && s' == Next(s, l);
    PhaseMovesForward(s, l, tx);
  }

  /** Over any number of crashes and recoveries a transaction changes phase at most ten times,
      and RolledBack, Failed and ForceResolved are never left. */
  lemma AtMostTenPhaseChanges(states: seq<System>, from: nat, to: nat, tx: TxId)
    requires Run(states) && from <= to < |states| && tx in states[from].journal
    ensures forall i :: from <= i <= to ==> tx in states[i].journal
    ensures Changes(Phases(states, from, to + 1, tx)) <= 10
    ensures Rank(states[from].journal[tx].phase) == 10 ==> states[to].journal[tx].phase == states[from].journal[tx].phase
  {
    RecordIsThere(states, from, to, tx);
    var ps := Phases(states, from, to + 1, tx);
    PhasesAreLinked(states, from, to, tx);
    RisingHistoryChangesAtMostTenTimes(Forward, ps);
    TopRankStays(ps, |ps| - 1);
  }

  lemma RecordIsThere(states: seq<System>, from: nat, to: nat, tx: TxId)
    requires Run(states) && from <= to < |states| && tx in states[from].journal
    ensures forall i :: from <= i <= to ==> tx in states[i].journal
  {
    forall i | from <= i <= to ensures tx in states[i].journal {
      RecordStays(states, from, i, tx);
    }
  }

  lemma PhasesAreLinked(states: seq<System>, from: nat, to: nat, tx: TxId)
    requires Run(states) && from <= to < |states| && forall i :: from <= i <= to ==> tx in states[i].journal
    ensures Linked(Forward, Phases(states, from, to + 1, tx))
  {
    var ps := Phases(states, from, to + 1, tx);
    forall i | 0 <= i < |ps| - 1 ensures Forward(ps[i], ps[i + 1]) {
      RecordGoesForward(states, from + i, tx);
    }
  }

  lemma {:induction false} TopRankStays(ps: seq<TxPhase>, n: nat)
    requires n < |ps| && Linked(Forward, ps)
    ensures Rank(ps[0]) == 10 ==> ps[n] == ps[0]
  {
    if n > 0 {
      TopRankStays(ps, n - 1);
      assert Forward(ps[n - 1], ps[n]);
    }
  }

  /** Until it ends, an apply knows the phase its transaction has in the journal. */
  lemma ApplyKnowsTheJournal(s: System, t: TaskId, input: M.Input)
    requires Inv(s) && Enabled(s, ApplyStep(t, input))
    ensures var tx, b, journal := s.tasks[t].tx, M.Step(s.tasks[t].a, input), Next(s, ApplyStep(t, input)).journal;
            && (tx in journal <==> b.stored.Some?)
            && (tx in journal ==> journal[tx].phase == b.stored.value)
  {
    assert TaskOk(s, t);
  }

  /** An apply that ends, and none of whose writes failed, gives a result that agrees with the
      phase its transaction has in the journal; a commit in the journal has evidence. */
  lemma ApplyEndsInAgreement(s: System, t: TaskId, input: M.Input)
    requires Inv(s) && Enabled(s, ApplyStep(t, input)) && M.Step(s.tasks[t].a, input).pc.Done?
    ensures var tx, b, journal := s.tasks[t].tx, M.Step(s.tasks[t].a, input), Next(s, ApplyStep(t, input)).journal;
            && (b.writes != [] && M.NoFailedWrite(b.writes) ==>
                  tx in journal && M.AgreesWith(b.pc.status, journal[tx].phase))
            && (tx in journal && journal[tx].phase == Committed ==> M.CommitEvidence(b))
  {
    ApplyKnowsTheJournal(s, t, input);
    StepHasInv(s, t, input);
    M.FinishedAgrees(M.Step(s.tasks[t].a, input));
  }

  lemma StepHasInv(s: System, t: TaskId, input: M.Input)
    requires Inv(s) && Enabled(s, ApplyStep(t, input))
    ensures M.Inv(M.Step(s.tasks[t].a, input))
  {
    assert TaskOk(s, t);
    M.StepKeepsInv(s.tasks[t].a, input);
  }
}
