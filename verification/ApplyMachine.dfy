/** One endpoint apply, as a machine that takes one journal write, one remote call or one
    store access at a time. The environment picks every outcome: whether a write succeeds,
    is lost, or fails after the rename has already landed it; what each call answers.

    Nothing in a step looks at other tasks, so what is proved here about the machine holds
    under any interleaving (module Interleaving). */
module ApplyMachine {
  import opened Wrappers
  import opened TxPhases
  import opened Strategies

  datatype Rpc = Prepare | Commit | Verify | FinalConfirm | Rollback

  /** A put succeeds, fails with the old content still in place, or fails after the rename. */
  datatype PutOutcome = PutOk | PutLost | PutLanded
  {
    predicate Stored() { !PutLost? }
  }

  /** The journal writes of an apply, in the order the code can reach them. */
  datatype Write =
    | WStarted
    | WPreparing
    | WStrategy
    | WPrepared
    | WCommitting
    | WVerifying
    | WFinalConfirming
    | WCommitted
    | WShadowInDoubt
    | WRollingBack
    | WRolledBack
    | WRollbackInDoubt
    | WFinish

  datatype Pc =
    | WaitLock
    | Gate
    | Drift
    | DryRun
    | Probe
    | Put(w: Write)
    | Call(rpc: Rpc)
    | Await(rpc: Rpc)
    | ReadShadow
    | WriteShadow
    | Done(status: ApplyStatus)

  datatype GateAnswer = Clear | Blocked | GateError

  datatype PlanAnswer = PlanError | Unchanged | Changed

  datatype Input =
    | Checked(ok: bool)
    | Gated(gate: GateAnswer)
    | Planned(plan: PlanAnswer)
    | Probed(strategy: Option<Strategy>)
    | Wrote(outcome: PutOutcome)
    | Sent
    | Answered(answer: Answer)

  predicate Fits(pc: Pc, input: Input) {
    match pc
    case WaitLock => input.Checked?
    case Gate => input.Gated?
    case Drift => input.Checked?
    case DryRun => input.Planned?
    case Probe => input.Probed?
    case Put(_) => input.Wrote?
    case Call(_) => input.Sent?
    case Await(_) => input.Answered?
    case ReadShadow => input.Checked?
    case WriteShadow => input.Checked?
    case Done(_) => false
  }

  /** mem: phase of the record in memory; stored: phase of the record in the journal;
      the three logs keep every call sent, every answer received and every write tried. */
  datatype Apply = Apply(
    pc: Pc,
    allowDegraded: bool,
    mem: TxPhase,
    stored: Option<TxPhase>,
    strategy: Option<Strategy>,
    sent: seq<Rpc>,
    replies: seq<(Rpc, Answer)>,
    writes: seq<(Write, PutOutcome)>)

  function Fresh(allowDegraded: bool): Apply {
    Apply(WaitLock, allowDegraded, Started, None, None, [], [], [])
  }

  /** The phase a write puts into the journal. */
  function Target(w: Write, mem: TxPhase): TxPhase {
    match w
    case WStarted => mem
    case WPreparing => Preparing
    case WStrategy => mem
    case WPrepared => Prepared
    case WCommitting => Committing
    case WVerifying => Verifying
    case WFinalConfirming => FinalConfirming
    case WCommitted => Committed
    case WShadowInDoubt => InDoubt
    case WRollingBack => RollingBack
    case WRolledBack => RolledBack
    case WRollbackInDoubt => InDoubt
    case WFinish => FailedApplyPhase(mem)
  }

  /** Where control goes when a write did not succeed, or its phase change was refused. */
  function AfterFailedWrite(w: Write, mem: TxPhase): Pc {
    match w
    case WStarted => Done(ApplyFailed)
    case WPreparing => Done(ApplyFailed)
    case WCommitted => Done(ApplyInDoubt)
    case WShadowInDoubt => Done(ApplyInDoubt)
    case WFinish => Done(StatusForFailedPhase(FailedApplyPhase(mem)))
    case _ => Put(WFinish)
  }

  /** Where control goes when a write succeeded. */
  function AfterWrite(w: Write, mem: TxPhase, strategy: Option<Strategy>): Pc {
    match w
    case WStarted => Put(WPreparing)
    case WPreparing => Probe
    case WStrategy => Call(Prepare)
    case WPrepared => Put(WCommitting)
    case WCommitting => Call(Commit)
    case WVerifying => Call(Verify)
    case WFinalConfirming =>
      if strategy == Some(ConfirmedCommit) then Call(FinalConfirm) else Put(WCommitted)
    case WCommitted => ReadShadow
    case WShadowInDoubt => Done(ApplyInDoubt)
    case WRollingBack => Call(Rollback)
    case WRolledBack => Put(WFinish)
    case WRollbackInDoubt => Put(WFinish)
    case WFinish => Done(StatusForFailedPhase(FailedApplyPhase(mem)))
  }

  /** A phase change followed by a journal put. Beginning a rollback changes the record in
      memory only once the put has succeeded. */
  function Writing(a: Apply, w: Write, outcome: PutOutcome): Apply {
    var target := Target(w, a.mem);
    if !IsAllowed(a.mem, target) then
      a.(pc := if w.WFinish? then Done(ApplyInDoubt) else AfterFailedWrite(w, a.mem))
    else
      a.(
        pc := if outcome.PutOk? then AfterWrite(w, a.mem, a.strategy) else AfterFailedWrite(w, a.mem),
        mem := if w.WRollingBack? && !outcome.PutOk? then a.mem else target,
        stored := if outcome.Stored() then Some(target) else a.stored,
        writes := a.writes + [(w, outcome)])
  }

  function OnAnswer(a: Apply, rpc: Rpc, answer: Answer): Pc {
    match rpc
    case Prepare => if answer == Reply(StatusPrepared) then Put(WPrepared) else Put(WRollingBack)
    case Commit =>
      if answer.Reply? && a.strategy.Some? && CommitStatusMatches(answer.status, a.strategy.value)
      then Put(WVerifying) else Put(WRollingBack)
    case Verify =>
      if answer == Reply(NoChange) || answer == Reply(StatusCommitted)
      then Put(WFinalConfirming) else Put(WRollingBack)
    case FinalConfirm => if answer == Reply(StatusCommitted) then Put(WCommitted) else Put(WRollingBack)
    case Rollback =>
      if answer == Reply(StatusRolledBack) || answer == Reply(NoChange)
      then Put(WRolledBack) else Put(WRollbackInDoubt)
  }

  function Probing(a: Apply, strategy: Option<Strategy>): Apply {
    match strategy
    case None => a.(pc := Put(WFinish))
    case Some(s) =>
      if !s.Supported() || (s.Degraded() && !a.allowDegraded) then a.(pc := Put(WFinish))
      else a.(pc := Put(WStrategy), strategy := Some(s))
  }

  function SuccessStatus(strategy: Option<Strategy>): ApplyStatus {
    if strategy.Some? && strategy.value.Degraded() then SuccessWithWarning else Success
  }

  function Step(a: Apply, input: Input): Apply
    requires Fits(a.pc, input)
  {
    match a.pc
    case WaitLock => a.(pc := if input.ok then Gate else Done(ApplyFailed))
    case Gate => a.(pc := match input.gate
                          case Clear => Drift
                          case Blocked => Done(ApplyInDoubt)
                          case GateError => Done(ApplyFailed))
    case Drift => a.(pc := if input.ok then DryRun else Done(ApplyFailed))
    case DryRun => a.(pc := match input.plan
                            case PlanError => Done(ApplyFailed)
                            case Unchanged => Done(NoOpSuccess)
                            case Changed => Put(WStarted))
    case Probe => Probing(a, input.strategy)
    case Put(w) => Writing(a, w, input.outcome)
    case Call(rpc) => a.(pc := Await(rpc), sent := a.sent + [rpc])
    case Await(rpc) => a.(pc := OnAnswer(a, rpc, input.answer), replies := a.replies + [(rpc, input.answer)])
    case ReadShadow => a.(pc := if input.ok then WriteShadow else Put(WShadowInDoubt))
    case WriteShadow => a.(pc := if input.ok then Done(SuccessStatus(a.strategy)) else Put(WShadowInDoubt))
  }

  // ---- What is true at each point of an apply ----

  /** The phase that announces a call before it is sent. */
  function Announced(rpc: Rpc): TxPhase {
    match rpc
    case Prepare => Preparing
    case Commit => Committing
    case Verify => Verifying
    case FinalConfirm => FinalConfirming
    case Rollback => RollingBack
  }

  /** The first n of: prepared; committed as the strategy demands; verified; confirmed. */
  ghost predicate GoodReplies(replies: seq<(Rpc, Answer)>, strategy: Strategy, n: nat) {
    && |replies| == n <= 4
    && (n >= 1 ==> replies[0] == (Prepare, Reply(StatusPrepared)))
    && (n >= 2 ==> && replies[1].0.Commit? && replies[1].1.Reply?
                   && CommitStatusMatches(replies[1].1.status, strategy))
    && (n >= 3 ==> replies[2] == (Verify, Reply(NoChange)) || replies[2] == (Verify, Reply(StatusCommitted)))
    && (n >= 4 ==> replies[3] == (FinalConfirm, Reply(StatusCommitted)))
  }

  ghost function Called(replies: seq<(Rpc, Answer)>): seq<Rpc> {
    seq(|replies|, i requires 0 <= i < |replies| => replies[i].0)
  }

  ghost predicate NoFailedWrite(writes: seq<(Write, PutOutcome)>) {
    forall i :: 0 <= i < |writes| ==> writes[i].1.PutOk?
  }

  /** Writes whose failure makes an apply end Failed although Prepare has been sent. */
  predicate Guarded(w: Write) {
    w.WPrepared? || w.WCommitting? || w.WVerifying? || w.WFinalConfirming? || w.WRollingBack?
  }

  ghost predicate GuardedWriteFailed(writes: seq<(Write, PutOutcome)>) {
    exists i :: 0 <= i < |writes| && Guarded(writes[i].0) && !writes[i].1.PutOk?
  }

  /** The put of RollingBack failed after its rename. */
  ghost predicate RollingBackLanded(writes: seq<(Write, PutOutcome)>) {
    exists i :: 0 <= i < |writes| && writes[i] == (WRollingBack, PutLanded)
  }

  lemma ExtendWrites(writes: seq<(Write, PutOutcome)>, w: Write, o: PutOutcome)
    ensures NoFailedWrite(writes + [(w, o)]) <==> NoFailedWrite(writes) && o.PutOk?
    ensures GuardedWriteFailed(writes + [(w, o)]) <==> GuardedWriteFailed(writes) || (Guarded(w) && !o.PutOk?)
    ensures RollingBackLanded(writes + [(w, o)]) <==> RollingBackLanded(writes) || (w, o) == (WRollingBack, PutLanded)
    ensures NoFailedWrite(writes) ==> !GuardedWriteFailed(writes) && !RollingBackLanded(writes)
  {
    var longer := writes + [(w, o)];
    assert longer[|writes|] == (w, o);
    assert forall i :: 0 <= i < |writes| ==> longer[i] == writes[i];
  }

  ghost predicate Usable(a: Apply) {
    && a.strategy.Some? && a.strategy.value.Supported()
    && (a.strategy.value.Degraded() ==> a.allowDegraded)
  }

  /** The device reported, in this order, prepared, committed as the strategy demands, verified
      and, for a confirmed commit, confirmed; and nothing else was asked of it. */
  ghost predicate CommitEvidence(a: Apply) {
    && Usable(a)
    && GoodReplies(a.replies, a.strategy.value, if a.strategy.value.ConfirmedCommit? then 4 else 3)
    && a.sent == Called(a.replies)
  }

  /** Memory and journal agree on p, no write has failed, n calls were answered well. */
  ghost predicate OnCourse(a: Apply, p: TxPhase, n: nat) {
    && a.mem == p && a.stored == Some(p) && NoFailedWrite(a.writes)
    && Usable(a) && GoodReplies(a.replies, a.strategy.value, n)
  }

  /** A rollback is due or under way. */
  ghost predicate Backing(a: Apply, p: TxPhase) {
    && a.mem == p && a.stored == Some(p) && NoFailedWrite(a.writes) && Usable(a) && a.replies != []
  }

  ghost predicate Untouched(a: Apply) {
    && a.mem.Started? && a.stored.None? && a.strategy.None? && a.replies == [] && a.writes == []
  }

  /** On the way to recording a failed apply. */
  ghost predicate Failing(a: Apply) {
    match a.mem
    case RolledBack => && a.replies != [] && !GuardedWriteFailed(a.writes) && !RollingBackLanded(a.writes)
                       && (a.stored == Some(RolledBack) || (a.stored == Some(RollingBack) && !NoFailedWrite(a.writes)))
    case InDoubt => && a.replies != [] && !GuardedWriteFailed(a.writes) && !RollingBackLanded(a.writes)
                    && (a.stored == Some(InDoubt) || (a.stored == Some(RollingBack) && !NoFailedWrite(a.writes)))
    case _ => && InFlight(a.mem) && a.stored.Some?
              && (GuardedWriteFailed(a.writes) <==> a.replies != [])
              && (a.replies == [] ==> a.mem.Preparing?)
              && (if RollingBackLanded(a.writes) then a.stored == Some(RollingBack) else InFlight(a.stored.value))
  }

  /** How a finished apply ends. */
  ghost predicate Ended(a: Apply, status: ApplyStatus) {
    && !status.PartialSuccess?
    && (status.Success? || status.SuccessWithWarning? ==>
          status == SuccessStatus(a.strategy) && a.stored == Some(Committed) && NoFailedWrite(a.writes))
    && (a.stored == Some(Committed) ==> CommitEvidence(a))
    && (a.replies != [] ==> (status.ApplyFailed? <==> GuardedWriteFailed(a.writes)))
    && (a.replies == [] ==> status.NoOpSuccess? || status.ApplyFailed? || status.ApplyInDoubt?)
    && (a.replies == [] && a.writes != [] ==> status.ApplyFailed?)
    && (a.replies != [] ==> a.writes != [])
    && (status.NoOpSuccess? ==> a.writes == [])
    && (a.writes == [] ==> a.stored.None?)
    && (a.writes != [] && NoFailedWrite(a.writes) ==> a.stored.Some? && AgreesWith(status, a.stored.value))
    && (a.stored.Some? && !RequiresRecovery(a.stored.value) && !a.stored.value.Committed? ==> AgreesWith(status, a.stored.value))
  }

  /** What the result of an apply says about the stored phase of its transaction. */
  predicate AgreesWith(status: ApplyStatus, phase: TxPhase) {
    match phase
    case Committed => status.Success? || status.SuccessWithWarning?
    case RolledBack => status.ApplyRolledBack?
    case InDoubt => status.ApplyInDoubt?
    case Failed => status.ApplyFailed?
    case _ => false
  }

  ghost predicate Calling(a: Apply, rpc: Rpc) {
    match rpc
    case Prepare => OnCourse(a, Preparing, 0)
    case Commit => OnCourse(a, Committing, 1)
    case Verify => OnCourse(a, Verifying, 2)
    case FinalConfirm => OnCourse(a, FinalConfirming, 3) && a.strategy == Some(ConfirmedCommit)
    case Rollback => Backing(a, RollingBack)
  }

  ghost predicate Writeable(a: Apply, w: Write) {
    match w
    case WStarted => false
    case WPreparing => && a.mem.Started? && a.stored == Some(Started) && a.strategy.None?
                       && a.replies == [] && NoFailedWrite(a.writes)
    case WStrategy => OnCourse(a, Preparing, 0)
    case WPrepared => OnCourse(a, Preparing, 1)
    case WCommitting => OnCourse(a, Prepared, 1)
    case WVerifying => OnCourse(a, Committing, 2)
    case WFinalConfirming => OnCourse(a, Verifying, 3)
    case WCommitted => OnCourse(a, FinalConfirming, |a.replies|) && CommitEvidence(a)
    case WShadowInDoubt => OnCourse(a, Committed, |a.replies|) && CommitEvidence(a)
    case WRollingBack => Backing(a, a.mem) && InFlight(a.mem)
    case WRolledBack => Backing(a, RollingBack)
    case WRollbackInDoubt => Backing(a, RollingBack)
    case WFinish => Failing(a)
  }

  ghost predicate AtPc(a: Apply) {
    match a.pc
    case WaitLock | Gate | Drift | DryRun => Untouched(a)
    case Probe => && a.mem.Preparing? && a.stored == Some(Preparing) && a.strategy.None?
                  && a.replies == [] && NoFailedWrite(a.writes) && a.writes != []
    case Call(rpc) => a.writes != [] && Calling(a, rpc)
    case Await(rpc) => a.writes != [] && Calling(a, rpc)
    case ReadShadow | WriteShadow => OnCourse(a, Committed, |a.replies|) && CommitEvidence(a) && a.writes != []
    case Done(status) => Ended(a, status)
    case Put(w) => if w.WStarted? then Untouched(a) else a.writes != [] && Writeable(a, w)
  }

  /** The record of an apply in memory, in the journal and at the device, point by point. */
  ghost predicate Inv(a: Apply) {
    && a.sent == Called(a.replies) + (if a.pc.Await? then [a.pc.rpc] else [])
    && (a.sent != [] ==> a.sent[0] == Prepare)
    && AtPc(a)
  }

  lemma StepKeepsInv(a: Apply, input: Input)
    requires Inv(a) && Fits(a.pc, input)
    ensures Inv(Step(a, input))
  {
    if a.pc.Put? {
      WritingKeepsInv(a, a.pc.w, input.outcome);
    } else if a.pc.Await? {
      AnswerKeepsInv(a, a.pc.rpc, input.answer);
    } else if a.pc.ReadShadow? || a.pc.WriteShadow? {
      ShadowStepKeepsInv(a, input);
    } else {
      QuietStepKeepsInv(a, input);
    }
  }

  lemma ShadowStepKeepsInv(a: Apply, input: Input)
    requires Inv(a) && Fits(a.pc, input) && (a.pc.ReadShadow? || a.pc.WriteShadow?)
    ensures Inv(Step(a, input))
  {
    ExtendWrites(a.writes, WFinish, PutOk);
  }

  lemma QuietStepKeepsInv(a: Apply, input: Input)
    requires Inv(a) && Fits(a.pc, input) && !a.pc.Put? && !a.pc.Await? && !a.pc.ReadShadow? && !a.pc.WriteShadow?
    ensures Inv(Step(a, input))
  {
  }

  lemma AnswerKeepsInv(a: Apply, rpc: Rpc, answer: Answer)
    requires Inv(a) && a.pc == Await(rpc)
    ensures Inv(Step(a, Answered(answer)))
  {
    var b := Step(a, Answered(answer));
    assert Called(b.replies) == Called(a.replies) + [rpc];
  }

  lemma WritingKeepsInv(a: Apply, w: Write, outcome: PutOutcome)
    requires Inv(a) && a.pc == Put(w)
    ensures Inv(Writing(a, w, outcome))
  {
    if w.WStarted? || w.WPreparing? || w.WStrategy? {
      EarlyWriteKeepsPc(a, w, outcome);
    } else if w.WRollingBack? || w.WRolledBack? || w.WRollbackInDoubt? || w.WFinish? {
      BackwardWritingKeepsInv(a, w, outcome);
    } else {
      ForwardWritingKeepsInv(a, w, outcome);
    }
  }

  lemma BackwardWritingKeepsInv(a: Apply, w: Write, outcome: PutOutcome)
    requires Inv(a) && a.pc == Put(w)
    requires w.WRollingBack? || w.WRolledBack? || w.WRollbackInDoubt? || w.WFinish?
    ensures Inv(Writing(a, w, outcome))
  {
    if w.WRollingBack? {
      RollingBackWriteKeepsPc(a, outcome);
    } else if w.WFinish? {
      FinishWriteKeepsPc(a, outcome);
    } else {
      RolledBackWriteKeepsPc(a, w, outcome);
    }
  }

  lemma ForwardWritingKeepsInv(a: Apply, w: Write, outcome: PutOutcome)
    requires Inv(a) && a.pc == Put(w)
    requires w.WCommitted? || w.WShadowInDoubt? || (Guarded(w) && !w.WRollingBack?)
    ensures Inv(Writing(a, w, outcome))
  {
    if w.WCommitted? || w.WShadowInDoubt? {
      LateWriteKeepsPc(a, w, outcome);
    } else {
      ForwardWriteKeepsPc(a, w, outcome);
    }
  }

  lemma EarlyWriteKeepsPc(a: Apply, w: Write, outcome: PutOutcome)
    requires AtPc(a) && a.pc == Put(w) && (w.WStarted? || w.WPreparing? || w.WStrategy?)
    ensures AtPc(Writing(a, w, outcome))
  {
    ExtendWrites(a.writes, w, outcome);
  }

  lemma LateWriteKeepsPc(a: Apply, w: Write, outcome: PutOutcome)
    requires Writeable(a, w) && (w.WCommitted? || w.WShadowInDoubt?)
    ensures var b := Writing(a, w, outcome);
            || (b.pc.ReadShadow? && OnCourse(b, Committed, |b.replies|) && CommitEvidence(b))
            || (b.pc.Done? && Ended(b, b.pc.status))
  {
    ExtendWrites(a.writes, w, outcome);
  }

  lemma RollingBackWriteKeepsPc(a: Apply, outcome: PutOutcome)
    requires Writeable(a, WRollingBack)
    ensures var b := Writing(a, WRollingBack, outcome);
            || (b.pc == Call(Rollback) && Backing(b, RollingBack))
            || (b.pc == Put(WFinish) && Failing(b))
  {
    ExtendWrites(a.writes, WRollingBack, outcome);
  }

  lemma FinishWriteKeepsPc(a: Apply, outcome: PutOutcome)
    requires Failing(a)
    ensures var b := Writing(a, WFinish, outcome); b.pc.Done? && Ended(b, b.pc.status)
  {
    ExtendWrites(a.writes, WFinish, outcome);
  }

  lemma RolledBackWriteKeepsPc(a: Apply, w: Write, outcome: PutOutcome)
    requires Writeable(a, w) && (w.WRolledBack? || w.WRollbackInDoubt?)
    ensures var b := Writing(a, w, outcome); b.pc == Put(WFinish) && Failing(b)
  {
    ExtendWrites(a.writes, w, outcome);
  }

  lemma ForwardWriteKeepsPc(a: Apply, w: Write, outcome: PutOutcome)
    requires Writeable(a, w) && Guarded(w) && !w.WRollingBack? && a.sent == Called(a.replies)
    ensures var b := Writing(a, w, outcome);
            || (b.pc == Put(WFinish) && Failing(b))
            || (b.pc.Put? && Writeable(b, b.pc.w))
            || (b.pc.Call? && Calling(b, b.pc.rpc))
  {
    ExtendWrites(a.writes, w, outcome);
  }

  // ---- Whole applies ----

  ghost predicate Moves(a: Apply, b: Apply) {
    exists input :: Fits(a.pc, input) && b == Step(a, input)
  }

  /** A fresh apply and the states it goes through, under some choice of outcomes. */
  ghost predicate Trace(states: seq<Apply>) {
    && states != [] && states[0] == Fresh(states[0].allowDegraded)
    && forall i {:trigger Moves(states[i], states[i + 1])} ::
         0 <= i < |states| - 1 ==> Moves(states[i], states[i + 1])
  }

  ghost predicate Reachable(a: Apply) {
    exists states :: Trace(states) && states[|states| - 1] == a
  }

  lemma {:induction false} TraceKeepsInv(states: seq<Apply>, n: nat)
    requires Trace(states) && n < |states|
    ensures Inv(states[n])
  {
    if n > 0 {
      TraceKeepsInv(states, n - 1);
      var m := n - 1;
      assert Moves(states[m], states[m + 1]);
      var input :| Fits(states[n - 1].pc, input) && states[n] == Step(states[n - 1], input);
      StepKeepsInv(states[n - 1], input);
    }
  }

  lemma ReachableHasInv(a: Apply)
    requires Reachable(a)
    ensures Inv(a)
  {
    var states :| Trace(states) && states[|states| - 1] == a;
    TraceKeepsInv(states, |states| - 1);
  }

  lemma ReachOneMore(a: Apply, input: Input)
    requires Reachable(a) && Fits(a.pc, input)
    ensures Reachable(Step(a, input))
  {
    var states :| Trace(states) && states[|states| - 1] == a;
    var longer := states + [Step(a, input)];
    forall i | 0 <= i < |longer| - 1 ensures Moves(longer[i], longer[i + 1]) {
      assert i < |states| - 1 ==> Moves(states[i], states[i + 1]);
    }
    assert Trace(longer);
  }

  /** Steps left at most, whatever the environment does. */
  function StepsLeft(pc: Pc): nat {
    match pc
    case WaitLock => 25
    case Gate => 24
    case Drift => 23
    case DryRun => 22
    case Probe => 19
    case Call(rpc) =>
      (match rpc
       case Prepare => 17
       case Commit => 13
       case Verify => 10
       case FinalConfirm => 7
       case Rollback => 4)
    case Await(rpc) =>
      (match rpc
       case Prepare => 16
       case Commit => 12
       case Verify => 9
       case FinalConfirm => 6
       case Rollback => 3)
    case ReadShadow => 3
    case WriteShadow => 2
    case Done(_) => 0
    case Put(w) =>
      match w
      case WStarted => 21
      case WPreparing => 20
      case WStrategy => 18
      case WPrepared => 15
      case WCommitting => 14
      case WVerifying => 11
      case WFinalConfirming => 8
      case WCommitted => 4
      case WShadowInDoubt => 1
      case WRollingBack => 5
      case WRolledBack => 2
      case WRollbackInDoubt => 2
      case WFinish => 1
  }

  lemma StepMakesProgress(a: Apply, input: Input)
    requires Fits(a.pc, input)
    ensures StepsLeft(Step(a, input).pc) < StepsLeft(a.pc)
  {
  }

  lemma {:induction false} TraceIsShort(states: seq<Apply>, n: nat)
    requires Trace(states) && n < |states|
    ensures n + StepsLeft(states[n].pc) <= 25
  {
    if n > 0 {
      TraceIsShort(states, n - 1);
      var m := n - 1;
      assert Moves(states[m], states[m + 1]);
      var input :| Fits(states[n - 1].pc, input) && states[n] == Step(states[n - 1], input);
      StepMakesProgress(states[n - 1], input);
    }
  }

  /** Every apply ends, after at most 25 steps. */
  lemma ApplyEnds(states: seq<Apply>)
    requires Trace(states)
    ensures |states| <= 26
    ensures |states| == 26 ==> states[25].pc.Done?
  {
    TraceIsShort(states, |states| - 1);
  }

  /** Committed is stored only on evidence, in order: prepared, committed as the strategy
      demands, verified, and confirmed for a confirmed commit. No write need have succeeded. */
  lemma CommittedNeedsEvidence(a: Apply)
    requires Reachable(a)
    ensures a.stored == Some(Committed) ==> CommitEvidence(a)
  {
    ReachableHasInv(a);
  }

  /** A finished apply that has sent Prepare reports Failed exactly when one of five journal
      writes failed; without failed writes it ends committed, rolled back or in doubt. */
  lemma OutcomeAfterPrepare(a: Apply)
    requires Reachable(a) && a.pc.Done? && Prepare in a.sent
    ensures a.pc.status.ApplyFailed? <==> GuardedWriteFailed(a.writes)
    ensures NoFailedWrite(a.writes) ==> a.stored in {Some(Committed), Some(RolledBack), Some(InDoubt)}
  {
    ReachableHasInv(a);
    ExtendWrites(a.writes, WFinish, PutOk);
  }

  /** When every journal write succeeds, result and journal say the same; Failed means that
      Prepare was never sent; and a result without a transaction wrote nothing. */
  lemma ResultAgreesWithJournal(a: Apply)
    requires Reachable(a) && a.pc.Done? && NoFailedWrite(a.writes)
    ensures a.stored.None? <==> a.writes == []
    ensures a.stored.Some? ==> AgreesWith(a.pc.status, a.stored.value)
    ensures a.stored == Some(Failed) ==> a.sent == []
    ensures a.stored.None? ==> a.sent == [] && !a.pc.status.Success? && !a.pc.status.SuccessWithWarning?
  {
    ReachableHasInv(a);
    ExtendWrites(a.writes, WFinish, PutOk);
  }

  /** The same without asking how the apply came about: its invariant is enough. */
  lemma FinishedAgrees(a: Apply)
    requires Inv(a) && a.pc.Done?
    ensures a.writes != [] && NoFailedWrite(a.writes) ==> a.stored.Some? && AgreesWith(a.pc.status, a.stored.value)
    ensures a.stored == Some(Committed) ==> CommitEvidence(a)
  {
  }

  /** The one stored phase change outside the allowed relation. */
  ghost predicate SkipsRollback(a: Apply, input: Input) {
    a.pc == Put(WFinish) && RollingBackLanded(a.writes) && input.Wrote? && input.outcome.Stored()
  }

  /** Each stored phase follows the allowed relation, except exactly when the put of RollingBack
      failed after its rename and the put of Failed then reaches the journal. */
  lemma StoredPhaseMoves(a: Apply, input: Input)
    requires Inv(a) && Fits(a.pc, input) && a.stored.Some?
    ensures var b := Step(a, input);
            && b.stored.Some?
            && (IsAllowed(a.stored.value, b.stored.value) <==> !SkipsRollback(a, input))
            && (SkipsRollback(a, input) ==> a.stored == Some(RollingBack) && b.stored == Some(Failed))
  {
    if a.pc.Put? {
      ExtendWrites(a.writes, a.pc.w, PutOk);
    }
  }

  /** A call is sent only while the phase announcing it is stored. */
  lemma CallIsAnnounced(a: Apply)
    requires Inv(a) && a.pc.Call?
    ensures a.stored == Some(Announced(a.pc.rpc))
  {
  }

  lemma Onward(a: Apply, input: Input) returns (b: Apply)
    requires Reachable(a) && Fits(a.pc, input)
    ensures Reachable(b) && b == Step(a, input)
  {
    b := Step(a, input);
    ReachOneMore(a, input);
  }

  lemma ReadyToStart() returns (a: Apply)
    ensures Reachable(a)
    ensures a == Fresh(false).(pc := Put(WStarted))
  {
    a := Fresh(false);
    assert Trace([a]);
    a := Onward(a, Checked(true));
    a := Onward(a, Gated(Clear));
    a := Onward(a, Checked(true));
    a := Onward(a, Planned(Changed));
  }

  /** Eight uneventful steps bring an apply to the point where Prepare is sent. */
  lemma ReadyToPrepare(strategy: Strategy) returns (a: Apply)
    requires strategy.Supported() && !strategy.Degraded()
    ensures Reachable(a)
    ensures a == Apply(Call(Prepare), false, Preparing, Some(Preparing), Some(strategy), [], [],
                       [(WStarted, PutOk), (WPreparing, PutOk), (WStrategy, PutOk)])
  {
    a := ReadyToStart();
    a := Onward(a, Wrote(PutOk));
    a := Onward(a, Wrote(PutOk));
    a := Onward(a, Probed(Some(strategy)));
    a := Onward(a, Wrote(PutOk));
  }

  lemma ReadyToRollBack() returns (a: Apply)
    ensures Reachable(a) && a.pc == Put(WRollingBack) && a.mem == Preparing
  {
    a := ReadyToPrepare(ConfirmedCommit);
    a := Onward(a, Sent);
    a := Onward(a, Answered(RpcError));
  }

  /** The stored phase can leave the closure of the allowed relation: RollingBack, then Failed. */
  lemma StoredPhaseCanSkipRollback() returns (a: Apply, input: Input)
    ensures Reachable(a) && Fits(a.pc, input)
    ensures a.stored == Some(RollingBack) && Step(a, input).stored == Some(Failed)
    ensures !CanReach(RollingBack, Failed)
  {
    a := ReadyToRollBack();
    a := Onward(a, Wrote(PutLanded));
    input := Wrote(PutOk);
  }

  lemma PrepareAnswered() returns (a: Apply)
    ensures Reachable(a)
    ensures a.pc == Put(WPrepared) && a.mem == Preparing
    ensures a.strategy == Some(CandidateCommit) && a.sent == [Prepare]
    ensures a.replies == [(Prepare, Reply(StatusPrepared))]
  {
    a := ReadyToPrepare(CandidateCommit);
    a := Onward(a, Sent);
    a := Onward(a, Answered(Reply(StatusPrepared)));
  }

  lemma ReadyToCommit() returns (a: Apply)
    ensures Reachable(a)
    ensures a.pc == Call(Commit) && a.mem == Committing && a.stored == Some(Committing)
    ensures a.strategy == Some(CandidateCommit) && a.sent == [Prepare]
    ensures a.replies == [(Prepare, Reply(StatusPrepared))]
  {
    a := PrepareAnswered();
    a := Onward(a, Wrote(PutOk));
    a := Onward(a, Wrote(PutOk));
  }

  lemma CommitAnswered() returns (a: Apply)
    ensures Reachable(a) && a.pc == Put(WVerifying) && a.mem == Committing
    ensures a.replies == [(Prepare, Reply(StatusPrepared)), (Commit, Reply(StatusCommitted))]
    ensures a.sent == [Prepare, Commit]
  {
    a := ReadyToCommit();
    a := Onward(a, Sent);
    a := Onward(a, Answered(Reply(StatusCommitted)));
  }

  /** A device can hold a committed change while the journal says Failed and no rollback was sent. */
  lemma FailedCanHideACommit() returns (a: Apply)
    ensures Reachable(a)
    ensures a.stored == Some(Failed) && a.pc == Done(ApplyFailed)
    ensures a.replies == [(Prepare, Reply(StatusPrepared)), (Commit, Reply(StatusCommitted))]
    ensures a.sent == [Prepare, Commit]
  {
    a := VerifyNotAnnounced();
    a := Onward(a, Wrote(PutOk));
  }

  lemma VerifyNotAnnounced() returns (a: Apply)
    ensures Reachable(a) && a.pc == Put(WFinish) && a.mem == Verifying
    ensures a.replies == [(Prepare, Reply(StatusPrepared)), (Commit, Reply(StatusCommitted))]
    ensures a.sent == [Prepare, Commit]
  {
    a := CommitAnswered();
    a := Onward(a, Wrote(PutLost));
  }
}
