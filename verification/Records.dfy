/**
 The durable records of the fill actor: move journals, CloudDrive operations and move results,
 with the two transition tables the repository enforces.
 */
module Records {
  import opened Options

  /** Names one candidate of one plan. */
  datatype Key = Key(planId: string, candidateId: string)

  datatype MoveState = MOVED | STALE | CONFLICT | INVALID_PATH | FAILED

  datatype MoveResult = MoveResult(candidateId: string, state: MoveState, error: Option<ErrorCode>)

  /** Results are filed under the candidate they are about. */
  ghost predicate Named(results: map<Key, MoveResult>) {
    forall k {:trigger results[k].candidateId} | k in results :: results[k].candidateId == k.candidateId
  }

  datatype ErrorCode =
    | SourceSymlink | DestinationSymlink | DestinationRootMissing | PathOutsideRoot
    | SourceMissing | SourceChanged | DestinationExists | DestinationParentUnavailable
    | CrossDeviceMove | MoveUnsupported | MoveFailed | MoveRollbackFailed
    | SourceChangedDuringMove | DestinationChangedDuringMove | RootsUnavailable
    | ReconcileSymlink | ReconcileQuarantineFailed | ReconcileQuarantineConflict
    | ReconcileQuarantineCleanupFailed | ReconcileRollbackConflict | ReconcileRollbackFailed
    | ReconcileDestinationConflict | ReconcileDestinationMissing | SourceChangedDuringReconcile
    | CloudMoveNotConfigured | CloudMappingInvalid | CloudPreflightFailed | CloudSourceMissing
    | CloudSourceChanged | CloudDestinationChanged | CloudDestinationMissing | CloudDestinationExists
    | CloudMoveInProgress | CloudMoveTransportUnknown | CloudMoveInterrupted | CloudMoveNotSubmitted
    | CloudObservationFailed | CloudMoveStatusUnknown | CloudMoveRejected | CloudMoveNotObserved
    | CloudMoveVerifying

  // -- the local move journal ------------------------------------------------

  datatype JournalState = JournalPrepared | JournalLinked | JournalSourceRemoved | JournalReconciled

  predicate JournalMayBecome(current: Option<JournalState>, next: JournalState) {
    match current
    case None => next == JournalPrepared
    case Some(JournalPrepared) => next in {JournalPrepared, JournalLinked, JournalReconciled}
    case Some(JournalLinked) => next in {JournalLinked, JournalSourceRemoved, JournalReconciled}
    case Some(JournalSourceRemoved) => next in {JournalSourceRemoved, JournalReconciled}
    case Some(JournalReconciled) => next == JournalReconciled
  }

  // -- the CloudDrive operation ----------------------------------------------

  datatype CloudState = Prepared | Submitting | Verifying | Unknown | Succeeded | Conflict | Failed {
    predicate Terminal() { this in {Succeeded, Conflict, Failed} }
    predicate NeedsError() { this in {Unknown, Conflict, Failed} }
  }

  predicate CloudMayBecome(current: Option<CloudState>, next: CloudState) {
    match current
    case None => next == Prepared
    case Some(Prepared) => next in {Prepared, Submitting, Conflict, Failed}
    case Some(Submitting) => next in {Submitting, Verifying, Unknown}
    case Some(Verifying) => next in {Verifying, Unknown, Succeeded, Conflict, Failed}
    case Some(Unknown) => next in {Unknown, Succeeded, Conflict, Failed}
    case Some(terminal) => next == terminal
  }

  /** How far a cloud operation has come; no entry of the table steps back. */
  function CloudProgress(state: CloudState): nat {
    match state
    case Prepared => 0
    case Submitting => 1
    case Verifying => 2
    case Unknown => 3
    case _ => 4
  }

  /** A path through the table from `first`, one entry per stored write. */
  ghost predicate CloudPath(first: CloudState, rest: seq<CloudState>)
    decreases |rest|
  {
    rest == [] || (CloudMayBecome(Some(first), rest[0]) && CloudPath(rest[0], rest[1..]))
  }

  /** Along any sequence of permitted writes, a terminal state is kept for good, an operation that
      left PREPARED never shows it again, and one that failed without leaving it never reached
      SUBMITTING on the way. */
  lemma {:induction false} CloudPathsNeverStepBack(first: CloudState, rest: seq<CloudState>, k: nat)
    requires CloudPath(first, rest) && k < |rest|
    ensures CloudProgress(first) <= CloudProgress(rest[k])
    ensures first.Terminal() ==> rest[k] == first
    ensures rest[k] == Submitting ==> first in {Prepared, Submitting}
    decreases k
  {
    if k > 0 {
      CloudPathsNeverStepBack(rest[0], rest[1..], k - 1);
    }
  }
}
