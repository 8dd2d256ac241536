/** What an apply makes of the answers it gets: which ones it demands, that it rolls back exactly when one is not
    as demanded, and how the answer to the rollback decides the end. */
module ApplyOutcomes {
  import opened Wrappers
  import opened TxPhases
  import opened Strategies
  import opened ApplyMachine

  /** The calls of an apply that goes well. */
  function Calls(strategy: Strategy): seq<Rpc> {
    if strategy.ConfirmedCommit? then [Prepare, Commit, Verify, FinalConfirm] else [Prepare, Commit, Verify]
  }

  /** The reply is one that lets the apply go on after its call. */
  predicate AsDemanded(strategy: Strategy, reply: (Rpc, Answer)) {
    || reply == (Prepare, Reply(StatusPrepared))
    || (strategy.ConfirmedCommit? && reply == (Commit, Reply(ConfirmedCommitPending)))
    || (!strategy.ConfirmedCommit? && reply == (Commit, Reply(StatusCommitted)))
    || reply in {(Verify, Reply(NoChange)), (Verify, Reply(StatusCommitted))}
    || reply == (FinalConfirm, Reply(StatusCommitted))
  }

  predicate ToCalls(strategy: Strategy, replies: seq<(Rpc, Answer)>) {
    && |replies| <= |Calls(strategy)|
    && forall i :: 0 <= i < |replies| ==> replies[i].0 == Calls(strategy)[i]
  }

  /** Every reply so far was as demanded. */
  predicate GoingWell(strategy: Strategy, replies: seq<(Rpc, Answer)>) {
    ToCalls(strategy, replies) && forall i :: 0 <= i < |replies| ==> AsDemanded(strategy, replies[i])
  }

  /** Every reply but the last was as demanded. */
  predicate BrokenOff(strategy: Strategy, replies: seq<(Rpc, Answer)>) {
    && replies != [] && ToCalls(strategy, replies)
    && GoingWell(strategy, replies[..|replies| - 1]) && !AsDemanded(strategy, replies[|replies| - 1])
  }

  /** After the first reply that was not as demanded, Rollback was sent and answered. */
  predicate Undone(strategy: Strategy, replies: seq<(Rpc, Answer)>) {
    && |replies| >= 2 && BrokenOff(strategy, replies[..|replies| - 1]) && replies[|replies| - 1].0 == Rollback
  }

  /** The device says that nothing of the change is left. */
  predicate SaysClean(replies: seq<(Rpc, Answer)>) {
    && replies != []
    && replies[|replies| - 1] in {(Rollback, Reply(StatusRolledBack)), (Rollback, Reply(NoChange))}
  }

  ghost predicate IsUndone(a: Apply) { a.strategy.Some? && Undone(a.strategy.value, a.replies) }

  ghost predicate IsBrokenOff(a: Apply) { a.strategy.Some? && BrokenOff(a.strategy.value, a.replies) }

  ghost predicate IsGoingWell(a: Apply) { a.replies == [] || (a.strategy.Some? && GoingWell(a.strategy.value, a.replies)) }

  /** The record of an apply that was rolled back. */
  ghost predicate Settled(a: Apply, phase: TxPhase) {
    a.stored == Some(phase) || (a.stored == Some(RollingBack) && !NoFailedWrite(a.writes))
  }

  ghost predicate FinishTold(a: Apply) {
    if IsUndone(a) then
      a.mem == (if SaysClean(a.replies) then RolledBack else InDoubt) && Settled(a, a.mem)
    else
      && !a.mem.RolledBack? && !a.mem.InDoubt? && (IsGoingWell(a) || IsBrokenOff(a))
      && a.stored != Some(RolledBack) && (NoFailedWrite(a.writes) ==> a.replies == [])
  }

  ghost predicate DoneTold(a: Apply, status: ApplyStatus) {
    if IsUndone(a) then
      if SaysClean(a.replies) then status.ApplyRolledBack? && Settled(a, RolledBack)
      else status.ApplyInDoubt? && Settled(a, InDoubt)
    else
      && !status.ApplyRolledBack? && a.stored != Some(RolledBack) && (IsGoingWell(a) || IsBrokenOff(a))
      && (NoFailedWrite(a.writes) && a.replies != [] ==>
            a.strategy.Some? && GoingWell(a.strategy.value, a.replies) && |a.replies| == |Calls(a.strategy.value)|)
  }

  /** What the replies say at each point of an apply. */
  ghost predicate Told(a: Apply) {
    match a.pc
    case Call(rpc) => if rpc.Rollback? then IsBrokenOff(a) else IsGoingWell(a)
    case Await(rpc) => if rpc.Rollback? then IsBrokenOff(a) else IsGoingWell(a)
    case Put(w) =>
      if w.WRollingBack? then IsBrokenOff(a)
      else if w.WRolledBack? then IsUndone(a) && SaysClean(a.replies)
      else if w.WRollbackInDoubt? then IsUndone(a) && !SaysClean(a.replies)
      else if w.WFinish? then FinishTold(a)
      else IsGoingWell(a)
    case Done(status) => DoneTold(a, status)
    case _ => IsGoingWell(a)
  }

  lemma OneMoreReply(strategy: Strategy, replies: seq<(Rpc, Answer)>, reply: (Rpc, Answer))
    requires GoingWell(strategy, replies) && |replies| < |Calls(strategy)| && reply.0 == Calls(strategy)[|replies|]
    ensures if AsDemanded(strategy, reply) then GoingWell(strategy, replies + [reply]) else BrokenOff(strategy, replies + [reply])
  {
    assert (replies + [reply])[..|replies|] == replies;
  }

  lemma RollbackReply(strategy: Strategy, replies: seq<(Rpc, Answer)>, answer: Answer)
    requires BrokenOff(strategy, replies)
    ensures Undone(strategy, replies + [(Rollback, answer)])
    ensures SaysClean(replies + [(Rollback, answer)]) <==> answer in {Reply(StatusRolledBack), Reply(NoChange)}
  {
    assert (replies + [(Rollback, answer)])[..|replies|] == replies;
  }

  lemma NotUndone(strategy: Strategy, replies: seq<(Rpc, Answer)>)
    requires ToCalls(strategy, replies)
    ensures !Undone(strategy, replies)
  {
  }

  /** Where an apply waits for an answer, the call is the next one. */
  lemma CallIsNext(a: Apply)
    requires Inv(a) && a.pc.Await? && !a.pc.rpc.Rollback?
    ensures a.strategy.Some? && |a.replies| < |Calls(a.strategy.value)| && Calls(a.strategy.value)[|a.replies|] == a.pc.rpc
  {
  }

  predicate GoesOn(pc: Pc) { pc in {Put(WPrepared), Put(WVerifying), Put(WFinalConfirming), Put(WCommitted)} }

  lemma DemandedGoesOn(a: Apply, rpc: Rpc, answer: Answer)
    requires a.strategy.Some? && !rpc.Rollback?
    ensures if AsDemanded(a.strategy.value, (rpc, answer)) then GoesOn(OnAnswer(a, rpc, answer))
            else OnAnswer(a, rpc, answer) == Put(WRollingBack)
  {
  }

  lemma AnswerIsKept(a: Apply, rpc: Rpc, answer: Answer)
    requires a.pc == Await(rpc)
    ensures var b := Step(a, Answered(answer));
            b.pc == OnAnswer(a, rpc, answer) && b.strategy == a.strategy && b.replies == a.replies + [(rpc, answer)]
  {
  }

  lemma ToldOnTheWay(a: Apply)
    requires (GoesOn(a.pc) && IsGoingWell(a)) || (a.pc == Put(WRollingBack) && IsBrokenOff(a))
    ensures Told(a)
  {
  }

  lemma CallAnswerKeepsTold(a: Apply, rpc: Rpc, answer: Answer)
    requires a.strategy.Some? && GoingWell(a.strategy.value, a.replies) && !rpc.Rollback? && a.pc == Await(rpc)
    requires |a.replies| < |Calls(a.strategy.value)| && Calls(a.strategy.value)[|a.replies|] == rpc
    ensures Told(Step(a, Answered(answer)))
  {
    OneMoreReply(a.strategy.value, a.replies, (rpc, answer));
    DemandedGoesOn(a, rpc, answer);
    AnswerIsKept(a, rpc, answer);
    ToldOnTheWay(Step(a, Answered(answer)));
  }

  lemma RollbackAnswerKeepsTold(a: Apply, answer: Answer)
    requires IsBrokenOff(a) && a.pc == Await(Rollback)
    ensures Told(Step(a, Answered(answer)))
  {
    RollbackReply(a.strategy.value, a.replies, answer);
  }

  lemma AnswerKeepsTold(a: Apply, answer: Answer)
    requires Inv(a) && Told(a) && a.pc.Await?
    ensures Told(Step(a, Answered(answer)))
  {
    if a.pc.rpc.Rollback? {
      RollbackAnswerKeepsTold(a, answer);
    } else {
      CallIsNext(a);
      CallAnswerKeepsTold(a, a.pc.rpc, answer);
    }
  }

  lemma GoingWellIsNotUndone(a: Apply)
    requires IsGoingWell(a) || IsBrokenOff(a)
    ensures !IsUndone(a)
  {
    if a.replies != [] {
      NotUndone(a.strategy.value, a.replies);
    }
  }

  lemma RolledBackWriteKeepsTold(a: Apply, w: Write, outcome: PutOutcome)
    requires Writeable(a, w) && Told(a) && a.pc == Put(w) && (w.WRolledBack? || w.WRollbackInDoubt?)
    ensures Told(Writing(a, w, outcome))
  {
    ExtendWrites(a.writes, w, outcome);
  }

  lemma RollingBackWriteKeepsTold(a: Apply, outcome: PutOutcome)
    requires Writeable(a, WRollingBack) && Told(a) && a.pc == Put(WRollingBack)
    ensures Told(Writing(a, WRollingBack, outcome))
  {
    ExtendWrites(a.writes, WRollingBack, outcome);
    GoingWellIsNotUndone(a);
    GoingWellIsNotUndone(Writing(a, WRollingBack, outcome));
  }

  lemma FinishWriteKeepsTold(a: Apply, outcome: PutOutcome)
    requires Failing(a) && Told(a) && a.pc == Put(WFinish)
    ensures Told(Writing(a, WFinish, outcome))
  {
    ExtendWrites(a.writes, WFinish, outcome);
  }

  lemma EarlyWriteKeepsTold(a: Apply, w: Write, outcome: PutOutcome)
    requires AtPc(a) && Told(a) && a.pc == Put(w) && (w.WStarted? || w.WPreparing? || w.WStrategy?)
    ensures Told(Writing(a, w, outcome))
  {
    ExtendWrites(a.writes, w, outcome);
  }

  lemma GuardedWriteKeepsTold(a: Apply, w: Write, outcome: PutOutcome)
    requires AtPc(a) && Told(a) && a.pc == Put(w) && Guarded(w) && !w.WRollingBack?
    ensures Told(Writing(a, w, outcome))
  {
    ExtendWrites(a.writes, w, outcome);
    GoingWellIsNotUndone(a);
  }

  lemma LateWriteKeepsTold(a: Apply, w: Write, outcome: PutOutcome)
    requires AtPc(a) && Told(a) && a.pc == Put(w) && (w.WCommitted? || w.WShadowInDoubt?)
    ensures Told(Writing(a, w, outcome))
  {
    ExtendWrites(a.writes, w, outcome);
    GoingWellIsNotUndone(a);
  }

  lemma ForwardWriteKeepsTold(a: Apply, w: Write, outcome: PutOutcome)
    requires AtPc(a) && Told(a) && a.pc == Put(w)
    requires !w.WFinish? && !w.WRollingBack? && !w.WRolledBack? && !w.WRollbackInDoubt?
    ensures Told(Writing(a, w, outcome))
  {
    if Guarded(w) {
      GuardedWriteKeepsTold(a, w, outcome);
    } else if w.WCommitted? || w.WShadowInDoubt? {
      LateWriteKeepsTold(a, w, outcome);
    } else {
      EarlyWriteKeepsTold(a, w, outcome);
    }
  }

  lemma BackwardWriteKeepsTold(a: Apply, w: Write, outcome: PutOutcome)
    requires AtPc(a) && Told(a) && a.pc == Put(w)
    requires w.WFinish? || w.WRollingBack? || w.WRolledBack? || w.WRollbackInDoubt?
    ensures Told(Writing(a, w, outcome))
  {
    if w.WRollingBack? {
      RollingBackWriteKeepsTold(a, outcome);
    } else if w.WFinish? {
      FinishWriteKeepsTold(a, outcome);
    } else {
      RolledBackWriteKeepsTold(a, w, outcome);
    }
  }

  lemma WritingKeepsTold(a: Apply, w: Write, outcome: PutOutcome)
    requires Inv(a) && Told(a) && a.pc == Put(w)
    ensures Told(Writing(a, w, outcome))
  {
    if w.WFinish? || w.WRollingBack? || w.WRolledBack? || w.WRollbackInDoubt? {
      BackwardWriteKeepsTold(a, w, outcome);
    } else {
      ForwardWriteKeepsTold(a, w, outcome);
    }
  }

  lemma StepKeepsTold(a: Apply, input: Input)
    requires Inv(a) && Told(a) && Fits(a.pc, input)
    ensures Told(Step(a, input))
  {
    if a.pc.Await? {
      AnswerKeepsTold(a, input.answer);
    } else if a.pc.Put? {
      WritingKeepsTold(a, a.pc.w, input.outcome);
    } else {
      QuietStepKeepsTold(a, input);
    }
  }

  lemma EarlyStepKeepsTold(a: Apply, input: Input)
    requires Inv(a) && Fits(a.pc, input)
    requires !a.pc.Await? && !a.pc.Put? && !a.pc.Call? && !a.pc.ReadShadow? && !a.pc.WriteShadow?
    ensures Told(Step(a, input))
  {
    assert a.replies == [] && a.stored != Some(RolledBack);
  }

  lemma SendingKeepsTold(a: Apply, input: Input)
    requires Told(a) && Fits(a.pc, input) && a.pc.Call?
    ensures Told(Step(a, input))
  {
    var b := Step(a, input);
    assert b.pc == Await(a.pc.rpc) && b.replies == a.replies && b.strategy == a.strategy;
  }

  /** After the commit every call of the strategy has been answered as demanded. */
  lemma CommittedIsAnswered(a: Apply)
    requires Inv(a) && (a.pc.ReadShadow? || a.pc.WriteShadow?) && IsGoingWell(a)
    ensures a.strategy.Some? && GoingWell(a.strategy.value, a.replies) && |a.replies| == |Calls(a.strategy.value)|
    ensures a.stored == Some(Committed)
  {
  }

  lemma ShadowStepKeepsTold(a: Apply, input: Input)
    requires Inv(a) && Told(a) && Fits(a.pc, input) && (a.pc.ReadShadow? || a.pc.WriteShadow?)
    ensures Told(Step(a, input))
  {
    CommittedIsAnswered(a);
    NotUndone(a.strategy.value, a.replies);
    var b := Step(a, input);
    assert b.replies == a.replies && b.strategy == a.strategy && b.stored == a.stored;
    assert !IsUndone(b) && IsGoingWell(b);
  }

  lemma QuietStepKeepsTold(a: Apply, input: Input)
    requires Inv(a) && Told(a) && Fits(a.pc, input) && !a.pc.Await? && !a.pc.Put?
    ensures Told(Step(a, input))
  {
    if a.pc.Call? {
      SendingKeepsTold(a, input);
    } else if a.pc.ReadShadow? || a.pc.WriteShadow? {
      ShadowStepKeepsTold(a, input);
    } else {
      EarlyStepKeepsTold(a, input);
    }
  }

  lemma {:induction false} TraceKeepsTold(states: seq<Apply>, n: nat)
    requires Trace(states) && n < |states|
    ensures Told(states[n])
  {
    if n > 0 {
      var m := n - 1;
      TraceKeepsTold(states, m);
      TraceKeepsInv(states, m);
      assert Moves(states[m], states[m + 1]);
      var input :| Fits(states[m].pc, input) && states[n] == Step(states[m], input);
      StepKeepsTold(states[m], input);
    }
  }

  lemma ReachableIsTold(a: Apply)
    requires Reachable(a)
    ensures Told(a)
  {
    var states :| Trace(states) && states[|states| - 1] == a;
    TraceKeepsTold(states, |states| - 1);
  }

  lemma UndoneIsRolledBack(a: Apply)
    requires a.sent == Called(a.replies) && (IsUndone(a) || IsGoingWell(a) || IsBrokenOff(a))
    ensures Rollback in a.sent <==> IsUndone(a)
  {
    if IsUndone(a) {
      assert a.sent[|a.replies| - 1] == Rollback;
    } else if a.replies != [] {
      forall i | 0 <= i < |a.sent| ensures a.sent[i] != Rollback {
        assert a.sent[i] == Calls(a.strategy.value)[i];
      }
    }
  }

  /** When Rollback was sent, its answer decides: an apply that is done ends rolled back exactly when the device
      reports that it has rolled back or that there was nothing to do, and in doubt otherwise. That phase is
      stored when no write failed; if one did, RollingBack may be left. */
  lemma RollbackAnswerDecides(a: Apply)
    requires Reachable(a) && a.pc.Done? && Rollback in a.sent
    ensures a.replies != [] && a.replies[|a.replies| - 1].0 == Rollback
    ensures var phase := if SaysClean(a.replies) then RolledBack else InDoubt;
            && a.pc.status == (if SaysClean(a.replies) then ApplyRolledBack else ApplyInDoubt)
            && (a.stored == Some(phase) || (a.stored == Some(RollingBack) && !NoFailedWrite(a.writes)))
  {
    ReachableHasInv(a);
    ReachableIsTold(a);
    UndoneIsRolledBack(a);
  }

  /** An apply ends rolled back, and RolledBack is stored, only if the device reported it. */
  lemma RolledBackNeedsEvidence(a: Apply)
    requires Reachable(a) && a.pc.Done? && (a.pc.status.ApplyRolledBack? || a.stored == Some(RolledBack))
    ensures SaysClean(a.replies)
  {
    ReachableIsTold(a);
  }

  /** Without failed writes, an apply that has sent Prepare sends Rollback exactly when a reply is not as demanded,
      after the first such reply; otherwise all calls were sent and answered as demanded. */
  lemma RollsBackExactlyOnABadReply(a: Apply)
    requires Reachable(a) && a.pc.Done? && Prepare in a.sent && NoFailedWrite(a.writes)
    ensures a.strategy.Some?
    ensures Rollback in a.sent <==> Undone(a.strategy.value, a.replies)
    ensures Rollback !in a.sent <==> GoingWell(a.strategy.value, a.replies) && |a.replies| == |Calls(a.strategy.value)|
  {
    ReachableHasInv(a);
    ReachableIsTold(a);
    UndoneIsRolledBack(a);
    if a.strategy.Some? && GoingWell(a.strategy.value, a.replies) {
      NotUndone(a.strategy.value, a.replies);
    }
  }
}
