/** Receipts and completed evidence: what may be claimed about an attempt, and
    what the constructors of these claims refuse. */
module Receipts {
  import opened Wrappers
  import opened Paths
  import opened Plans
  import opened Journal
  import opened Schedule
  import opened Jobs

  // ---------------------------------------------------------------- durability

  function PreparationDurability(journal: Status, incoming: Status, recovery: Status): Durability {
    Durability(journal, incoming, recovery, NotAttempted, NotAttempted, NotAttempted)
  }

  function Statuses(d: Durability): seq<Status> {
    [d.journal, d.incoming, d.recovery, d.active, d.rejected, d.completed]
  }

  predicate VisibleOrConfirmed(status: Status) {
    status.Visible? || status.Confirmed? || status.NotAttempted?
  }

  /** Whether a durability profile may accompany a completed application. */
  predicate CompletedDurabilityOk(control: Control, d: Durability) {
    && d.journal.Confirmed? && d.completed.Confirmed?
    && match control.durability
       case VisibilityOnly => forall s :: s in Statuses(d) ==> VisibleOrConfirmed(s)
       case JournalAndRecovery =>
         && (d.recovery.NotAttempted? || d.recovery.Confirmed?)
         && VisibleOrConfirmed(d.active) && VisibleOrConfirmed(d.rejected)
       case AllDomains => forall s :: s in Statuses(d) ==> s.NotAttempted? || s.Confirmed?
  }

  // ---------------------------------------------------------------- failed receipts

  predicate FailedOutcomeOk(outcome: AttemptOutcome, recovery: RecoveryState, journaled: bool, d: Durability) {
    && !outcome.AttemptCompleted?
    && (outcome.PreconditionRefused? ==> recovery.Unchanged? && !journaled)
    && (outcome.FailedBeforeTargetMutation? ==> recovery.Unchanged?)
    && (outcome.FailedFullyRecovered? ==> recovery.ExactPriorStateRestored?)
    && (outcome.FailedWithPartialEffects? ==> recovery.KnownResidualEffects?)
    && (outcome.AttemptIndeterminate? ==> recovery.RequiresAuthoritativeObservation?)
    && (outcome in {FailedFullyRecovered, FailedWithPartialEffects, DurabilityUnconfirmed, AttemptIndeterminate} ==> journaled)
    && (outcome.DurabilityUnconfirmed? ==> exists s :: s in Statuses(d) && (s.Visible? || s.Unconfirmed?))
  }

  predicate FailedPathOk(outcome: AttemptOutcome, c: Consequence) {
    && !c.eligible
    && (outcome.PreconditionRefused? ==> c.active.None? && c.rejected.None?)
    && (outcome.FailedBeforeTargetMutation? ==> c.active.None? || c.active == Some(Failed))
  }

  /** The failure receipt, or `None` where its construction throws. */
  function FailedReceipt(
      plan: Plan, outcome: AttemptOutcome, recovery: RecoveryState, d: Durability, paths: seq<Consequence>,
      journaled: bool): (r: Option<Receipt>)
    ensures r.Some? ==> r.value == Receipt(outcome, recovery, d, paths, None)
  {
    if !(forall c :: c in paths ==> c.path in PlanPaths(plan)) then None
    else if !FailedOutcomeOk(outcome, recovery, journaled, d) then None
    else if !(forall c :: c in paths ==> FailedPathOk(outcome, c)) then None
    else Some(Receipt(outcome, recovery, d, paths, None))
  }

  // ---------------------------------------------------------------- completed receipts

  /** Whether a path consequence is that of a completed decision. */
  predicate CompletedPath(decision: Decision, before: Presence, c: Consequence) {
    && !before.Unobserved? && !c.after.UnknownState? && c.eligible
    && (if decision.rejected.NoRejected? then c.rejected.None? else c.rejected == Some(Completed))
    && match decision.active
       case ActivateIncoming | RetainObserved => c.active == Some(Completed) && c.after == Observed(true)
       case RemoveObserved | RemainAbsent => c.active == Some(Completed) && c.after == Observed(false)
       case RemoveDirectoryIfEmpty =>
         || (c.active == Some(Completed) && c.after == Observed(false))
         || (c.active == Some(ConditionalRetained) && c.after == Observed(true))
  }

  /** Completed evidence covers the whole plan, path by path, or its
      construction throws. */
  function CompletedEvidenceOf(
      job: Job, seed: map<Path, Presence>, projection: nat, paths: seq<Consequence>, d: Durability)
    : (r: Option<CompletedEvidence>)
    ensures r.Some? ==> r.value == CompletedEvidence(projection, paths, d)
    ensures r.Some? ==> |paths| == |job.plan| && forall i :: 0 <= i < |paths| ==> paths[i].path == job.plan[i].path
  {
    if |paths| == |job.plan|
       && (forall i :: 0 <= i < |paths| ==> paths[i].path == job.plan[i].path)
       && CompletedDurabilityOk(job.control, d)
       && (forall i :: 0 <= i < |paths| ==>
             paths[i].path in seed && CompletedPath(job.plan[i], seed[paths[i].path], paths[i]))
    then Some(CompletedEvidence(projection, paths, d))
    else None
  }

  function CompletedReceipt(evidence: CompletedEvidence, recovery: RecoveryState): Option<Receipt> {
    if recovery.RecoveryAssetsRetained? || recovery.Unchanged?
    then Some(Receipt(AttemptCompleted, recovery, evidence.durability, evidence.paths, Some(evidence)))
    else None
  }

  // ---------------------------------------------------------------- interruptions

  /** What stopped the active phase. */
  datatype Interruption =
    | EffectFailed
    | EffectIndeterminate
    | DurabilityUnconfirmedThere
    | DurabilityIndeterminateThere
    | ObservationMismatch
    | ObservationIndeterminate

  datatype EffectResult = EffectResult(path: Path, outcome: Outcome)

  predicate Uncertain(interruption: Interruption) {
    interruption.EffectIndeterminate? || interruption.DurabilityIndeterminateThere? || interruption.ObservationIndeterminate?
  }

  predicate AtEffect(interruption: Interruption) {
    interruption.EffectFailed? || interruption.EffectIndeterminate?
  }

  predicate SemanticallyComplete(effects: seq<EffectResult>) {
    forall e :: e in effects ==> e.outcome.Completed? || e.outcome.ConditionalRetained?
  }

  predicate ActiveStatusFits(interruption: Interruption, active: Status) {
    match interruption
    case EffectFailed => active.NotAttempted? || active.Visible?
    case EffectIndeterminate | DurabilityIndeterminateThere => active.StatusIndeterminate?
    case DurabilityUnconfirmedThere => active.Unconfirmed?
    case ObservationMismatch | ObservationIndeterminate => active.NotAttempted? || active.Visible? || active.Confirmed?
  }

  /** Whether an interrupted application can be constructed at all. */
  predicate InterruptionOk(
      state: State, interruption: Interruption, effects: seq<EffectResult>, scheduled: seq<Path>, active: Status)
  {
    && (state.Recovering? || (if Uncertain(interruption) then state.StateIndeterminate? else state.RecoveryPending?))
    && |effects| <= |scheduled|
    && (forall i :: 0 <= i < |effects| ==> effects[i].path == scheduled[i])
    && (if AtEffect(interruption)
        then |effects| > 0
             && effects[|effects| - 1].outcome == if interruption.EffectFailed? then Failed else Indeterminate
        else |effects| == |scheduled| && SemanticallyComplete(effects))
    && ActiveStatusFits(interruption, active)
  }

  /** Whether an active phase can be constructed as complete. */
  predicate MutatedOk(state: State, effects: seq<EffectResult>, scheduled: seq<Path>, active: Status) {
    && (state.EffectsVisible? || state.ResultObserved?)
    && |effects| == |scheduled|
    && (forall i :: 0 <= i < |effects| ==> effects[i].path == scheduled[i])
    && SemanticallyComplete(effects)
    && (if exists e :: e in effects && e.outcome.Completed? then active.Visible? || active.Confirmed? else active.NotAttempted?)
  }

  // ---------------------------------------------------------------- how an attempt ends

  datatype Ending = Ending(outcome: AttemptOutcome, recovery: RecoveryState)

  /** The ending when nothing is undone: there is nothing to undo, or recovery
      was not asked for. */
  function EndingWithoutRecovery(interruption: Interruption, nothingToUndo: bool): Ending {
    if nothingToUndo then
      if interruption.ObservationMismatch? || interruption.ObservationIndeterminate?
      then Ending(AttemptIndeterminate, RequiresAuthoritativeObservation)
      else Ending(FailedBeforeTargetMutation, Unchanged)
    else if Uncertain(interruption) then Ending(AttemptIndeterminate, RequiresAuthoritativeObservation)
    else if interruption.DurabilityUnconfirmedThere? then Ending(DurabilityUnconfirmed, RecoveryNotRepresentable)
    else Ending(FailedWithPartialEffects, KnownResidualEffects)
  }

  /** The ending after undoing the candidates. */
  function EndingAfterRecovery(allRecovered: bool, allExact: bool, indeterminate: bool): Ending {
    if allRecovered && allExact then Ending(FailedFullyRecovered, ExactPriorStateRestored)
    else if indeterminate || (allRecovered && !allExact) then Ending(AttemptIndeterminate, RequiresAuthoritativeObservation)
    else Ending(FailedWithPartialEffects, KnownResidualEffects)
  }

  /** The state a failed attempt is sealed in. */
  function FailureState(outcome: AttemptOutcome, rejectedVisible: bool): Option<State> {
    match outcome
    case FailedFullyRecovered => Some(Recovered)
    case DurabilityUnconfirmed | FailedWithPartialEffects => Some(EffectsVisible)
    case AttemptIndeterminate => Some(StateIndeterminate)
    case FailedBeforeTargetMutation => Some(if rejectedVisible then EffectsVisible else Abandoned)
    case PreconditionRefused | AttemptCompleted => None
  }

  /** Every ending the engine classifies passes the outcome rules of its
      receipt, whatever the durability. */
  lemma EndingsAccepted(interruption: Interruption, nothingToUndo: bool, a: bool, b: bool, c: bool, d: Durability)
    ensures var e := EndingWithoutRecovery(interruption, nothingToUndo);
            ActiveStatusFits(interruption, d.active) ==> FailedOutcomeOk(e.outcome, e.recovery, true, d)
    ensures var e := EndingAfterRecovery(a, b, c); FailedOutcomeOk(e.outcome, e.recovery, true, d)
  {
    assert d.active in Statuses(d);
  }
}
