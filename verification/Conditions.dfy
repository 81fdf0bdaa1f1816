/** The status conditions of a Migration. Several reasons double as latches: the reconciler keeps
    protocol state in them, because they survive an operator restart. */
module Conditions {

  datatype CondType =
    | Validated | CloneCompleted | Streaming | CaughtUp | CutoverCompleted | OwnershipApplied
    | Verified | Complete | Failed | CommitsBlocked | RetryHeld

  datatype CondStatus = CondTrue | CondFalse | CondUnknown

  datatype Reason =
    // Validated
    | SpecValid | InvalidSpec | PreflightFailed | PreflightRunning
    // CloneCompleted
    | CloneRunning | CopyingData | TablesEmptyOnTarget | BaseCopyDone | CloneSucceeded
    | CloneIncomplete | CloneFailed | SnapshotLost
    // Streaming and CaughtUp
    | Replaying | LagBelowThreshold | ConfirmingCatchUp | Lagging
    // CutoverCompleted, OwnershipApplied and Verified
    | RehearsalPodRemains | DrainIncomplete | DrainVerified
    | OwnershipRunning | OwnershipDone | OwnershipFailed | OwnershipSuspended
    | VerificationRunning | ComparePassed | SchemaMismatch | DataMismatch
    // Complete and Failed
    | DryRunSucceeded | MigrationSucceeded | BackoffLimitExceeded
    | PermissionDenied | DiskFull | SchemaDrift
    // CommitsBlocked
    | SyncRepWait | NoSyncRepWait | WorkerSucceeded | SyncRepUnobserved
    // RetryHeld
    | GateProbing | WorkerPodRemains | ProbeFailed | SessionsRemain | SyncCommitNotLocal
    | CommitBlocked | GatePassed | HoldSuspended | HoldMigrationFailed

  datatype Condition = Condition(status: CondStatus, reason: Reason)

  type Conds = map<CondType, Condition>

  predicate IsTrue(cs: Conds, t: CondType) {
    t in cs && cs[t].status.CondTrue?
  }

  predicate IsFalse(cs: Conds, t: CondType) {
    t in cs && cs[t].status.CondFalse?
  }

  /** The condition is False for exactly this reason: how a latch is read back. */
  predicate Latched(cs: Conds, t: CondType, r: Reason) {
    t in cs && cs[t] == Condition(CondFalse, r)
  }
}
