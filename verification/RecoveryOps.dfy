/** Decisions of recovery: which action a phase calls for, what one device's answers amount
    to, and how the verdicts on several devices are merged. */
module RecoveryOps {
  import opened Wrappers
  import opened TxPhases
  import opened Strategies
  import opened Journal

  datatype RecoveryAction = Noop | DiscardPreparedChanges | AdapterRecover | ManualIntervention

  function ActionFor(phase: TxPhase): RecoveryAction {
    match phase
    case Started | Preparing | Prepared => DiscardPreparedChanges
    case Committing | Verifying | FinalConfirming | RollingBack | Recovering => AdapterRecover
    case InDoubt => ManualIntervention
    case Committed | RolledBack | Failed | ForceResolved => Noop
  }

  function PhaseFromStatus(action: RecoveryAction, status: AdapterStatus): TxPhase {
    if status.StatusRolledBack? then RolledBack
    else if action.AdapterRecover? && status.StatusCommitted? then Committed
    else if action.DiscardPreparedChanges? && status.NoChange? then RolledBack
    else InDoubt
  }

  function Merge(current: Option<TxPhase>, next: TxPhase): TxPhase {
    match current
    case None => next
    case Some(left) => if left == next then left else InDoubt
  }

  /** One attempt of a recover call. */
  datatype Try = TryReply(status: AdapterStatus) | TransportError | OtherError

  /** All that one device may answer while a record is recovered. */
  datatype DeviceEnv = DeviceEnv(
    managed: bool,
    client: bool,
    confirm: Answer,
    planned: bool,
    verify: Answer,
    tries: nat -> Try)

  const RETRY_ATTEMPTS := 3

  /** The answer of the first of three attempts that does not fail in transport. */
  function RecoverAnswer(tries: nat -> Try): Answer {
    var settled := if !tries(0).TransportError? then tries(0)
                   else if !tries(1).TransportError? then tries(1)
                   else tries(2);
    if settled.TryReply? then Reply(settled.status) else RpcError
  }

  /** What a device's answers amount to: a phase, or nothing when it could not be settled. */
  function Verdict(action: RecoveryAction, env: DeviceEnv): Option<TxPhase> {
    if !env.managed then None
    else
      var answer := RecoverAnswer(env.tries);
      if answer.Reply? then Some(PhaseFromStatus(action, answer.status)) else None
  }

  /** The same for a confirmed commit whose final confirm may be outstanding: confirm again,
      else verify, else ask the adapter. */
  function ConfirmVerdict(env: DeviceEnv): Option<TxPhase> {
    if !env.managed || !env.client then None
    else if env.confirm == Reply(StatusCommitted) then Some(Committed)
    else if env.planned && (env.verify == Reply(NoChange) || env.verify == Reply(StatusCommitted)) then Some(Committed)
    else
      var answer := RecoverAnswer(env.tries);
      if answer.Reply? && !PhaseFromStatus(AdapterRecover, answer.status).InDoubt?
      then Some(PhaseFromStatus(AdapterRecover, answer.status)) else None
  }

  predicate Confirming(record: Record) {
    record.phase.FinalConfirming? && record.strategy == Some(ConfirmedCommit)
  }

  function VerdictFor(record: Record, action: RecoveryAction, env: DeviceEnv): Option<TxPhase> {
    if Confirming(record) then ConfirmVerdict(env) else Verdict(action, env)
  }

  function Verdicts(record: Record, action: RecoveryAction, envs: seq<DeviceEnv>): seq<Option<TxPhase>> {
    seq(|envs|, i requires 0 <= i < |envs| => VerdictFor(record, action, envs[i]))
  }

  /** The running merge over the verdicts so far. */
  function Merged(verdicts: seq<Option<TxPhase>>): Option<TxPhase> {
    if verdicts == [] then None
    else
      var n := |verdicts| - 1;
      var last := verdicts[n];
      Some(Merge(Merged(verdicts[..n]), if last.Some? then last.value else InDoubt))
  }

  /** The phase a record is recovered to; None stands for an error, after which it is in doubt. */
  function Combined(record: Record, action: RecoveryAction, envs: seq<DeviceEnv>): Option<TxPhase> {
    if record.devices == [] then
      Some(if action.DiscardPreparedChanges? && !Confirming(record) then RolledBack else InDoubt)
    else if None in Verdicts(record, action, envs) then None
    else
      var merged := Merged(Verdicts(record, action, envs));
      Some(if merged.Some? then merged.value else InDoubt)
  }

  /** The phase finally stored: a commit counts only once the shadow has been stored too. */
  function Resolution(record: Record, action: RecoveryAction, envs: seq<DeviceEnv>, persisted: bool): TxPhase {
    match Combined(record, action, envs)
    case None => InDoubt
    case Some(phase) => if phase.Committed? && !persisted then InDoubt else phase
  }

  /** A merge settles on a phase exactly when every verdict is that phase. */
  lemma {:induction false} MergedIsUnanimous(verdicts: seq<Option<TxPhase>>, p: TxPhase)
    requires verdicts != [] && !p.InDoubt?
    ensures Merged(verdicts) == Some(p) <==> forall i :: 0 <= i < |verdicts| ==> verdicts[i] == Some(p)
  {
    var n := |verdicts| - 1;
    if n > 0 {
      MergedIsUnanimous(verdicts[..n], p);
      assert Merged(verdicts[..n]).Some?;
    } else {
      assert Merged(verdicts[..n]).None?;
    }
  }

  /** All or nothing: a record with devices resolves to Committed, or to RolledBack, exactly when
      every device resolves that way; any failure or mix leaves it in doubt. */
  lemma RecoveryIsAllOrNothing(record: Record, action: RecoveryAction, envs: seq<DeviceEnv>, p: TxPhase)
    requires record.devices != [] && |envs| == |record.devices| && !p.InDoubt?
    ensures Combined(record, action, envs) == Some(p)
            <==> forall env :: env in envs ==> VerdictFor(record, action, env) == Some(p)
  {
    var verdicts := Verdicts(record, action, envs);
    MergedIsUnanimous(verdicts, p);
    assert Combined(record, action, envs) == Some(p) <==> forall i :: 0 <= i < |verdicts| ==> verdicts[i] == Some(p);
    assert forall i :: 0 <= i < |envs| ==> verdicts[i] == VerdictFor(record, action, envs[i]);
  }

  /** The device reported the change as committed: confirmed, verified, or committed when asked to recover. */
  predicate SaysCommitted(record: Record, action: RecoveryAction, env: DeviceEnv) {
    && env.managed
    && if Confirming(record) then
         && env.client
         && (|| env.confirm == Reply(StatusCommitted)
             || (env.planned && env.verify in {Reply(NoChange), Reply(StatusCommitted)})
             || RecoverAnswer(env.tries) == Reply(StatusCommitted))
       else action.AdapterRecover? && RecoverAnswer(env.tries) == Reply(StatusCommitted)
  }

  /** The device reported that nothing of the change is left. */
  predicate SaysRolledBack(record: Record, action: RecoveryAction, env: DeviceEnv) {
    && env.managed
    && if Confirming(record) then
         && env.client && !SaysCommitted(record, action, env) && RecoverAnswer(env.tries) == Reply(StatusRolledBack)
       else
         || RecoverAnswer(env.tries) == Reply(StatusRolledBack)
         || (action.DiscardPreparedChanges? && RecoverAnswer(env.tries) == Reply(NoChange))
  }

  /** The verdict on a device is what it says. A device of a confirmed commit that says neither is not settled. */
  lemma VerdictFollowsTheReport(record: Record, action: RecoveryAction, env: DeviceEnv)
    ensures VerdictFor(record, action, env) == Some(Committed) <==> SaysCommitted(record, action, env)
    ensures VerdictFor(record, action, env) == Some(RolledBack) <==> SaysRolledBack(record, action, env)
    ensures Confirming(record) && !SaysCommitted(record, action, env) && !SaysRolledBack(record, action, env)
            ==> VerdictFor(record, action, env) == None
  {
  }

  /** A record with devices is recovered as committed exactly when every device says so and the shadow is
      stored, and as rolled back exactly when every device says that. */
  lemma RecoveryFollowsTheReports(record: Record, action: RecoveryAction, envs: seq<DeviceEnv>, persisted: bool)
    requires record.devices != [] && |envs| == |record.devices|
    ensures Resolution(record, action, envs, persisted) == Committed
            <==> persisted && forall env :: env in envs ==> SaysCommitted(record, action, env)
    ensures Resolution(record, action, envs, persisted) == RolledBack
            <==> forall env :: env in envs ==> SaysRolledBack(record, action, env)
  {
    RecoveryIsAllOrNothing(record, action, envs, Committed);
    RecoveryIsAllOrNothing(record, action, envs, RolledBack);
    forall env ensures VerdictFor(record, action, env) == Some(Committed) <==> SaysCommitted(record, action, env)
               ensures VerdictFor(record, action, env) == Some(RolledBack) <==> SaysRolledBack(record, action, env)
    {
      VerdictFollowsTheReport(record, action, env);
    }
  }

  /** Only three phases come out of recovery, and they do not depend on the order of devices. */
  lemma RecoveryIgnoresDeviceOrder(record: Record, action: RecoveryAction, envs: seq<DeviceEnv>, envs': seq<DeviceEnv>, persisted: bool)
    requires |envs| == |envs'| == |record.devices| && forall env :: env in envs <==> env in envs'
    ensures Resolution(record, action, envs, persisted) == Resolution(record, action, envs', persisted)
    ensures Resolution(record, action, envs, persisted) in {Committed, RolledBack, InDoubt}
  {
    if record.devices != [] {
      RecoveryIsAllOrNothing(record, action, envs, Committed);
      RecoveryIsAllOrNothing(record, action, envs', Committed);
      RecoveryIsAllOrNothing(record, action, envs, RolledBack);
      RecoveryIsAllOrNothing(record, action, envs', RolledBack);
      CombinedIsOneOfThree(record, action, envs);
      CombinedIsOneOfThree(record, action, envs');
    }
  }

  lemma CombinedIsOneOfThree(record: Record, action: RecoveryAction, envs: seq<DeviceEnv>)
    ensures Settling(Combined(record, action, envs))
  {
    MergedSettles(Verdicts(record, action, envs));
  }

  predicate Settling(v: Option<TxPhase>) {
    v.None? || v.value.Committed? || v.value.RolledBack? || v.value.InDoubt?
  }

  lemma {:induction false} MergedSettles(verdicts: seq<Option<TxPhase>>)
    requires forall i :: 0 <= i < |verdicts| ==> Settling(verdicts[i])
    ensures Settling(Merged(verdicts))
  {
    if verdicts != [] {
      MergedSettles(verdicts[..|verdicts| - 1]);
    }
  }

  /** Recovery that starts before the commit phase never resolves to Committed. */
  lemma DiscardNeverCommits(record: Record, envs: seq<DeviceEnv>, persisted: bool)
    requires |envs| == |record.devices|
    requires record.phase.Started? || record.phase.Preparing? || record.phase.Prepared?
    ensures Resolution(record, ActionFor(record.phase), envs, persisted) != Committed
  {
    if record.devices != [] {
      RecoveryIsAllOrNothing(record, DiscardPreparedChanges, envs, Committed);
      assert envs[0] in envs;
    }
  }

  // ---- By the stored phase ----

  /** Of at most three attempts the first that does not fail in transport gives this status. */
  predicate RepliesWith(tries: nat -> Try, status: AdapterStatus) {
    exists n: nat :: n < 3 && tries(n) == TryReply(status) && forall m: nat :: m < n ==> tries(m).TransportError?
  }

  lemma RepliesAreAnswers(tries: nat -> Try, status: AdapterStatus)
    ensures RecoverAnswer(tries) == Reply(status) <==> RepliesWith(tries, status)
  {
    if tries(0) == TryReply(status) {
      assert RepliesWith(tries, status);
    } else if tries(0).TransportError? && tries(1) == TryReply(status) {
      assert forall m: nat :: m < 1 ==> tries(m).TransportError?;
    } else if tries(0).TransportError? && tries(1).TransportError? && tries(2) == TryReply(status) {
      assert forall m: nat :: m < 2 ==> tries(m).TransportError?;
    }
  }

  /** The phases in which a commit may have been sent. */
  predicate MayBeCommitted(p: TxPhase) {
    p in {Committing, Verifying, FinalConfirming, RollingBack, Recovering}
  }

  /** The device holds the change, as far as it says: for a confirmed commit that was being confirmed it may
      say so to the confirmation, to the verification or to the adapter's recovery, otherwise to the last. */
  predicate HoldsChange(record: Record, env: DeviceEnv) {
    && env.managed && MayBeCommitted(record.phase)
    && if record.phase == FinalConfirming && record.strategy == Some(ConfirmedCommit) then
         && env.client
         && (|| env.confirm == Reply(StatusCommitted)
             || (env.planned && env.verify in {Reply(NoChange), Reply(StatusCommitted)})
             || RepliesWith(env.tries, StatusCommitted))
       else RepliesWith(env.tries, StatusCommitted)
  }

  /** The device holds nothing of the change, as far as it says. Before a commit was sent "no change" says so too. */
  predicate HoldsNothing(record: Record, env: DeviceEnv) {
    && env.managed && !HoldsChange(record, env)
    && (record.phase == FinalConfirming && record.strategy == Some(ConfirmedCommit) ==> env.client)
    && (|| RepliesWith(env.tries, StatusRolledBack)
        || (record.phase in {Started, Preparing, Prepared} && RepliesWith(env.tries, NoChange)))
  }

  lemma SaysByPhase(record: Record, env: DeviceEnv)
    requires RequiresRecovery(record.phase) && !record.phase.InDoubt?
    ensures SaysCommitted(record, ActionFor(record.phase), env) <==> HoldsChange(record, env)
    ensures SaysRolledBack(record, ActionFor(record.phase), env) <==> HoldsNothing(record, env)
  {
    RepliesAreAnswers(env.tries, StatusCommitted);
    RepliesAreAnswers(env.tries, StatusRolledBack);
    RepliesAreAnswers(env.tries, NoChange);
  }

  /** What recovery stores, by the phase it found: Committed exactly when every device holds the change and the
      shadows are stored, RolledBack exactly when every device holds nothing, and InDoubt otherwise. A record
      without devices is rolled back if no commit can have been sent, and in doubt otherwise. */
  lemma ResolutionByPhase(record: Record, envs: seq<DeviceEnv>, persisted: bool)
    requires RequiresRecovery(record.phase) && !record.phase.InDoubt? && |envs| == |record.devices|
    ensures var phase := Resolution(record, ActionFor(record.phase), envs, persisted);
            && (phase == Committed <==> record.devices != [] && persisted && forall env :: env in envs ==> HoldsChange(record, env))
            && (phase == RolledBack <==> if record.devices == [] then record.phase in {Started, Preparing, Prepared}
                                         else forall env :: env in envs ==> HoldsNothing(record, env))
            && phase in {Committed, RolledBack, InDoubt}
  {
    CombinedIsOneOfThree(record, ActionFor(record.phase), envs);
    if record.devices != [] {
      RecoveryFollowsTheReports(record, ActionFor(record.phase), envs, persisted);
      forall env ensures SaysCommitted(record, ActionFor(record.phase), env) <==> HoldsChange(record, env)
                 ensures SaysRolledBack(record, ActionFor(record.phase), env) <==> HoldsNothing(record, env)
      {
        SaysByPhase(record, env);
      }
    }
  }
}
