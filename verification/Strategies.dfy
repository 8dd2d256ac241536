/** Transaction strategies, adapter answers and the small decisions taken on them. */
module Strategies {
  import opened TxPhases

  datatype Strategy = ConfirmedCommit | CandidateCommit | RunningRollbackOnError | BestEffortCli | Unsupported
  {
    predicate Supported() { !Unsupported? }

    predicate Degraded() { RunningRollbackOnError? || BestEffortCli? }
  }

  datatype AdapterStatus =
    | Unspecified
    | NoChange
    | StatusPrepared
    | StatusCommitted
    | StatusRolledBack
    | StatusFailed
    | StatusInDoubt
    | ConfirmedCommitPending

  /** What a remote call gives back: a status, or an error. */
  datatype Answer = Reply(status: AdapterStatus) | RpcError

  datatype ApplyStatus = NoOpSuccess | Success | SuccessWithWarning | PartialSuccess | ApplyFailed | ApplyRolledBack | ApplyInDoubt

  predicate CommitStatusMatches(status: AdapterStatus, strategy: Strategy) {
    if strategy.ConfirmedCommit? then status.ConfirmedCommitPending? else status.StatusCommitted?
  }

  function FailedApplyPhase(current: TxPhase): TxPhase {
    if current.RolledBack? || current.InDoubt? then current else Failed
  }

  function StatusForFailedPhase(phase: TxPhase): ApplyStatus {
    match phase
    case RolledBack => ApplyRolledBack
    case InDoubt => ApplyInDoubt
    case _ => ApplyFailed
  }
}
