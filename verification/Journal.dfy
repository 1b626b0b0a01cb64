/** The values an application journal is made of: declaration, step, cursor.

    Every identity in the source is a SHA-256 digest of a canonical record.
    Here an identity is the identified value itself, that is, the digest is
    taken to be injective; module CanonicalRecord proves what the byte records
    contribute to that and on which records injectivity is needed.
 */
module Journal {
  import opened Wrappers
  import opened Paths
  import opened Plans

  datatype State =
    | Preparing
    | Prepared
    | Mutating
    | EffectsVisible
    | ResultObserved
    | ApplicationCompleted
    | ExternalResolutionPending
    | Recovering
    | Recovered
    | Finalized
    | Abandoned
    | StateIndeterminate
    | RecoveryPending

  datatype EffectKind =
    | CaptureOldObject
    | StageIncomingPayload
    | PublishActiveObject
    | PublishRejectedObject
    | ObserveResult
    | SynchronizeActiveNamespace
    | SynchronizeRejectedStore
    | SealReceipt
    | SynchronizeIncomingStaging
    | SynchronizeRecoveryStaging
    | SynchronizeCompletedEvidence
    | RecoverActiveObject
    | SynchronizeRecoveredNamespace
    | PublishCompletedEvidence

  datatype EventKind = Intent | EventCompleted | EventFailed | EventIndeterminate

  datatype Effect = Effect(ordinal: nat, kind: EffectKind, path: Option<Path>)

  datatype Event = Event(sequence: nat, kind: EventKind, effect: Effect)

  /** Physical outcome of one backend mechanism. */
  datatype Outcome = Completed | ConditionalRetained | Failed | Indeterminate

  datatype Domain =
    | JournalDomain
    | IncomingStaging
    | RecoveryStaging
    | ActiveNamespace
    | RejectedStore
    | CompletedEvidenceDomain

  datatype Status = NotAttempted | Visible | Confirmed | Unconfirmed | StatusIndeterminate

  datatype Durability = Durability(
    journal: Status,
    incoming: Status,
    recovery: Status,
    active: Status,
    rejected: Status,
    completed: Status)

  datatype AttemptOutcome =
    | PreconditionRefused
    | FailedBeforeTargetMutation
    | AttemptCompleted
    | FailedFullyRecovered
    | FailedWithPartialEffects
    | DurabilityUnconfirmed
    | AttemptIndeterminate

  datatype RecoveryState =
    | Unchanged
    | ExactPriorStateRestored
    | RecoveryAssetsRetained
    | KnownResidualEffects
    | RecoveryNotRepresentable
    | RequiresAuthoritativeObservation

  /** What a path consequence says about the path afterwards: its admitted
      observation, a fresh observation, or nothing. */
  datatype After = AdmittedState | Observed(present: bool) | UnknownState

  /** One path of a receipt.  `None` stands for a not-attempted effect. */
  datatype Consequence = Consequence(
    path: Path,
    active: Option<Outcome>,
    rejected: Option<Outcome>,
    after: After,
    eligible: bool)

  datatype CompletedEvidence = CompletedEvidence(
    projection: nat,
    paths: seq<Consequence>,
    durability: Durability)

  datatype Receipt = Receipt(
    outcome: AttemptOutcome,
    recovery: RecoveryState,
    durability: Durability,
    paths: seq<Consequence>,
    completed: Option<CompletedEvidence>)

  /** The replay fact of a terminal step; a step without one has none. */
  datatype Fact =
    | StageFact(outcome: Outcome, evidence: nat)
    | CaptureFact(path: Path, outcome: Outcome, exact: bool)
    | RejectedFact(path: Path, outcome: Outcome, record: Option<nat>)
    | ActiveFact(path: Path, outcome: Outcome)
    | RecoveryFact(path: Path, outcome: Outcome)
    | SynchronizationFact(domain: Domain, status: Status)
    | EvidenceFact(published: CompletedEvidence)

  /** An admitted observation of a path. */
  datatype Presence = Absent | Present | Unobserved

  datatype Declaration = Declaration(header: nat, effects: seq<Effect>, seed: map<Path, Presence>)

  datatype Step = Step(
    declaration: Declaration,
    sequence: nat,
    predecessor: Option<Step>,
    state: State,
    event: Option<Event>,
    fact: Option<Fact>,
    receipt: Option<Receipt>,
    completed: Option<CompletedEvidence>)

  datatype Cursor = Cursor(
    declaration: Declaration,
    stepCount: nat,
    latest: Option<Step>,
    state: State,
    receipt: Option<Receipt>,
    completed: Option<CompletedEvidence>)

  /** Declarations list their effects in ordinal order. */
  predicate Consecutive(effects: seq<Effect>) {
    forall i :: 0 <= i < |effects| ==> effects[i].ordinal == i
  }

  predicate StateMayFollow(previous: State, next: State) {
    previous == next ||
    match previous
    case Preparing => next.Prepared? || next.Abandoned?
    case Prepared => next.Mutating?
    case Mutating => next.EffectsVisible? || next.RecoveryPending? || next.StateIndeterminate? || next.Abandoned?
    case EffectsVisible => next.ResultObserved? || next.RecoveryPending? || next.StateIndeterminate? || next.Abandoned?
    case ResultObserved =>
      next.ApplicationCompleted? || next.EffectsVisible? || next.RecoveryPending? || next.StateIndeterminate?
    case RecoveryPending =>
      next.Recovering? || next.Recovered? || next.EffectsVisible? || next.StateIndeterminate? || next.Abandoned?
    case StateIndeterminate => next.Recovering? || next.EffectsVisible? || next.Abandoned?
    case Recovering => next.Recovered? || next.EffectsVisible? || next.StateIndeterminate? || next.Abandoned?
    case ApplicationCompleted | ExternalResolutionPending | Recovered | Finalized | Abandoned => false
  }

  /** Constructing a step: `None` when the source throws. */
  function MakeStep(
      declaration: Declaration, sequence: nat, predecessor: Option<Step>, state: State, event: Option<Event>,
      fact: Option<Fact>, receipt: Option<Receipt>, completed: Option<CompletedEvidence>): Option<Step>
  {
    if (sequence == 0) != predecessor.None? then None
    else if completed.Some? && receipt.None? then None
    else Some(Step(declaration, sequence, predecessor, state, event, fact, receipt, completed))
  }

  function InitialCursor(declaration: Declaration): Cursor {
    Cursor(declaration, 0, None, Preparing, None, None)
  }

  /** The cursor after `step`, or `None` when the step is not its successor. */
  function Advance(current: Cursor, step: Step): (next: Option<Cursor>)
    ensures next.Some? ==> StateMayFollow(current.state, step.state) && step.sequence == current.stepCount
  {
    if step.declaration != current.declaration then None
    else if step.sequence != current.stepCount then None
    else if step.predecessor != current.latest then None
    else if !StateMayFollow(current.state, step.state) then None
    else if current.receipt.Some? && step.receipt != current.receipt then None
    else if current.completed.Some? && step.completed != current.completed then None
    else Some(Cursor(current.declaration, current.stepCount + 1, Some(step), step.state, step.receipt, step.completed))
  }

  predicate SuccessRequired(kind: EffectKind) {
    !kind.RecoverActiveObject? && !kind.SynchronizeRecoveredNamespace?
  }

  predicate Successful(state: State) {
    state.ApplicationCompleted? || state.ExternalResolutionPending? || state.Finalized?
  }
}
