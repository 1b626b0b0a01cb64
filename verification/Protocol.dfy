/** The invariant of a whole attempt: what the durable journal (a ledger) and
    the backend calls made so far (a trace) always have to do with each other,
    through any number of crashes and restarts. */
module Protocol {
  import opened Wrappers
  import opened Paths
  import opened Plans
  import opened Journal
  import opened Ledgers
  import opened Jobs
  import opened Receipts

  /** One backend call.  `outcome` is what physically happened, also when the
      process died before it learnt about it; `exact` is the capture's claim
      that exact recovery is possible; `durable` steps of the journal were
      durable when the call was made. */
  datatype Call = Call(kind: EffectKind, path: Path, outcome: Outcome, exact: bool, durable: nat)

  /** One path as it was seen after `at` calls. */
  datatype Observation = Observation(at: nat, path: Path, present: bool)

  type Trace = seq<Call>

  type Seed = map<Path, Presence>

  /** The seed is what the plan's satisfied preconditions admitted. */
  ghost predicate SeedOk(job: Job, seed: Seed) {
    forall d :: d in job.plan ==> d.path in seed && seed[d.path] == if d.present then Present else Absent
  }

  // ---------------------------------------------------------------- reading ledgers and traces

  function FactOutcome(fact: Fact): Outcome {
    match fact
    case StageFact(outcome, _) => outcome
    case CaptureFact(_, outcome, _) => outcome
    case RejectedFact(_, outcome, _) => outcome
    case ActiveFact(_, outcome) => outcome
    case RecoveryFact(_, outcome) => outcome
    case SynchronizationFact(_, _) | EvidenceFact(_) => Indeterminate
  }

  /** What a slot says about its mechanism.  An intent without a terminal
      event counts as indeterminate. */
  function Meaning(slot: Slot): Option<Outcome> {
    match slot
    case Idle => None
    case Intended => Some(Indeterminate)
    case Done(_, fact) => Some(if fact.Some? then FactOutcome(fact.value) else Indeterminate)
  }

  function SlotAt(ledger: Ledger, kind: EffectKind, path: Path): Slot {
    At(ledger, Key(kind, Some(path)))
  }

  function Recorded(ledger: Ledger, kind: EffectKind, path: Path): Option<Outcome> {
    Meaning(SlotAt(ledger, kind, path))
  }

  /** The effect changed its target or may have. */
  predicate Touched(ledger: Ledger, path: Path) {
    var outcome := Recorded(ledger, PublishActiveObject, path);
    outcome == Some(Completed) || outcome == Some(Indeterminate)
  }

  predicate Passed(ledger: Ledger, path: Path) {
    var outcome := Recorded(ledger, PublishActiveObject, path);
    outcome == Some(Completed) || outcome == Some(ConditionalRetained)
  }

  /** The effects to undo: those that may have changed the target, last
      first. */
  function Candidates(ledger: Ledger, active: seq<Path>): seq<Path> {
    if active == [] then []
    else
      var last := active[|active| - 1];
      (if Touched(ledger, last) then [last] else []) + Candidates(ledger, active[..|active| - 1])
  }

  /** The paths one mechanism was called on, in order. */
  function CallPaths(trace: Trace, kind: EffectKind): seq<Path> {
    if trace == [] then []
    else
      var last := trace[|trace| - 1];
      CallPaths(trace[..|trace| - 1], kind) + (if last.kind == kind then [last.path] else [])
  }

  /** The latest capture of a path: its outcome and its exactness claim. */
  function Held(trace: Trace, path: Path): Option<(Outcome, bool)> {
    if trace == [] then None
    else
      var last := trace[|trace| - 1];
      if last.kind.CaptureOldObject? && last.path == path then Some((last.outcome, last.exact))
      else Held(trace[..|trace| - 1], path)
  }

  /** Whether undoing the effect on a path restores exactly its prior state:
      the path was absent, or its object was captured exactly. */
  predicate Exact(seed: Seed, ledger: Ledger, path: Path) {
    && path in seed
    && (seed[path].Absent?
        || (seed[path].Present? && ExactCapture(SlotAt(ledger, CaptureOldObject, path))))
  }

  predicate ExactCapture(slot: Slot) {
    slot.Done? && slot.fact.Some? && slot.fact.value.CaptureFact? && slot.fact.value.outcome.Completed? && slot.fact.value.exact
  }

  function Rank(kind: EffectKind): nat {
    match kind
    case PublishRejectedObject => 1
    case PublishActiveObject => 2
    case RecoverActiveObject => 3
    case _ => 0
  }

  predicate Mechanism(kind: EffectKind) {
    Rank(kind) > 0
  }

  // ---------------------------------------------------------------- the invariant

  predicate Undone(seed: Seed, ledger: Ledger, path: Path) {
    Recorded(ledger, RecoverActiveObject, path) == Some(Completed) && Exact(seed, ledger, path)
  }

  /** A path consequence says what the journal knows, and claims the admitted
      state only for a path that was left alone or exactly restored. */
  predicate TruthfulPath(job: Job, seed: Seed, ledger: Ledger, c: Consequence) {
    && (c.path in job.active ==> c.active == Recorded(ledger, PublishActiveObject, c.path))
    && (c.path in job.rejected ==> c.rejected == Recorded(ledger, PublishRejectedObject, c.path))
    && (c.after.AdmittedState? ==> !Touched(ledger, c.path) || Undone(seed, ledger, c.path))
  }

  ghost predicate Truthful(job: Job, seed: Seed, ledger: Ledger, receipt: Receipt) {
    && (receipt.outcome.FailedBeforeTargetMutation? ==> Candidates(ledger, job.active) == [])
    && (receipt.outcome.FailedFullyRecovered? ==>
          forall p :: p in Candidates(ledger, job.active) ==> Undone(seed, ledger, p))
    && (receipt.outcome.AttemptCompleted? ==>
          && (forall p :: p in job.active ==> Passed(ledger, p))
          && forall p :: p in job.rejected ==> Recorded(ledger, PublishRejectedObject, p) == Some(Completed))
    && forall c :: c in receipt.paths ==> TruthfulPath(job, seed, ledger, c)
  }

  /** What a receipt says was observed, was observed after the last call. */
  ghost predicate Witnessed(receipt: Receipt, trace: Trace, seen: seq<Observation>) {
    forall c :: c in receipt.paths && c.after.Observed? ==> Observation(|trace|, c.path, c.after.present) in seen
  }

  /** A recorded terminal event reports exactly what the call did. */
  predicate Reports(slot: Slot, call: Call) {
    slot.Intended? || (slot.Done? && Meaning(slot) == Some(call.outcome))
  }

  ghost predicate Linked(ledger: Ledger, trace: Trace) {
    && (forall i :: 0 <= i < |trace| && Mechanism(trace[i].kind) ==>
          Reports(SlotAt(ledger, trace[i].kind, trace[i].path), trace[i]))
    && forall kind, p :: Mechanism(kind) && SlotAt(ledger, kind, p).Done? ==>
         p in CallPaths(trace, kind) && SlotAt(ledger, kind, p).fact.Some?
  }

  /** A recorded capture fact is the latest capture of its path. */
  predicate HeldFact(slot: Slot, trace: Trace, p: Path) {
    slot.Done? && slot.fact.Some? && slot.fact.value.CaptureFact? ==>
      Held(trace, p) == Some((slot.fact.value.outcome, slot.fact.value.exact))
  }

  ghost predicate CapturesHeld(ledger: Ledger, trace: Trace) {
    forall p :: HeldFact(SlotAt(ledger, CaptureOldObject, p), trace, p)
  }

  /** Everything before a recorded path in its list has been passed. */
  ghost predicate RejectedShape(job: Job, ledger: Ledger) {
    forall i, j :: 0 <= i < j < |job.rejected| && Recorded(ledger, PublishRejectedObject, job.rejected[j]).Some? ==>
                     Recorded(ledger, PublishRejectedObject, job.rejected[i]) == Some(Completed)
  }

  ghost predicate ActiveShape(job: Job, ledger: Ledger) {
    && (forall i, j :: 0 <= i < j < |job.active| && Recorded(ledger, PublishActiveObject, job.active[j]).Some? ==>
                         Passed(ledger, job.active[i]))
    && forall p, q :: p in job.active && q in job.rejected && Recorded(ledger, PublishActiveObject, p).Some? ==>
                        Recorded(ledger, PublishRejectedObject, q) == Some(Completed)
  }

  /** If the rejected store has to be synchronized, it was. */
  predicate RejectedDurable(job: Job, ledger: Ledger) {
    var key := Key(SynchronizeRejectedStore, None);
    JobDeclares(job, key) ==> CompletedSlot(At(ledger, key))
  }

  ghost predicate DurableGate(job: Job, ledger: Ledger) {
    forall p :: p in job.active && Recorded(ledger, PublishActiveObject, p).Some? ==> RejectedDurable(job, ledger)
  }

  function RecoveredSync(): Key {
    Key(SynchronizeRecoveredNamespace, None)
  }

  /** Recovery has not begun. */
  ghost predicate RecoverIdle(ledger: Ledger) {
    (forall p :: Recorded(ledger, RecoverActiveObject, p).None?) && At(ledger, RecoveredSync()).Idle?
  }

  ghost predicate RecoverShape(job: Job, ledger: Ledger) {
    var undo := Candidates(ledger, job.active);
    && (forall p :: Recorded(ledger, RecoverActiveObject, p).Some? ==> p in undo)
    && forall i, j :: 0 <= i < j < |undo| && Recorded(ledger, RecoverActiveObject, undo[j]).Some? ==>
                        Recorded(ledger, RecoverActiveObject, undo[i]) == Some(Completed)
  }

  /** The order in which a mechanism visits its paths. */
  function Turns(job: Job, ledger: Ledger, kind: EffectKind): seq<Path> {
    match kind
    case PublishRejectedObject => job.rejected
    case PublishActiveObject => job.active
    case RecoverActiveObject => Candidates(ledger, job.active)
    case _ => []
  }

  /** Rejected publication, then active execution, then recovery. */
  ghost predicate RanksAscend(trace: Trace) {
    forall i, j :: 0 <= i < j < |trace| ==> Rank(trace[i].kind) <= Rank(trace[j].kind)
  }

  /** Each mechanism was called on a prefix of its paths, in their order. */
  ghost predicate CallOrder(job: Job, ledger: Ledger, trace: Trace) {
    && RanksAscend(trace)
    && forall kind :: Mechanism(kind) ==> CallPaths(trace, kind) <= Turns(job, ledger, kind)
  }

  predicate BeforeMutation(state: State) {
    state.Preparing? || state.Prepared?
  }

  ghost predicate PhaseOk(ledger: Ledger) {
    && (BeforeMutation(ledger.state) ==> forall kind, p :: Mechanism(kind) ==> SlotAt(ledger, kind, p).Idle?)
    && (!RecoverIdle(ledger) ==> ledger.state.Recovering? || ledger.receipt.Some?)
  }

  ghost predicate OnlyDeclared(job: Job, ledger: Ledger) {
    forall key :: key in ledger.slots ==> JobDeclares(job, key)
  }

  /** Journal and calls agree. */
  ghost predicate Core(job: Job, seed: Seed, ledger: Ledger, trace: Trace) {
    && JobOk(job) && SeedOk(job, seed)
    && OnlyDeclared(job, ledger)
    && Linked(ledger, trace)
    && CapturesHeld(ledger, trace)
    && RejectedShape(job, ledger)
    && ActiveShape(job, ledger) && DurableGate(job, ledger)
    && RecoverShape(job, ledger)
    && CallOrder(job, ledger, trace)
    && PhaseOk(ledger)
    && (ledger.receipt.Some? ==> Truthful(job, seed, ledger, ledger.receipt.value))
  }

  // ---------------------------------------------------------------- what the journal itself keeps

  function TerminalOf(outcome: Outcome): EventKind {
    match outcome
    case Completed | ConditionalRetained => EventCompleted
    case Failed => EventFailed
    case Indeterminate => EventIndeterminate
  }

  function StatusTerminal(status: Status): EventKind {
    match status
    case Confirmed => EventCompleted
    case Visible | Unconfirmed | NotAttempted => EventFailed
    case StatusIndeterminate => EventIndeterminate
  }

  /** The terminal event of a capture: one that must allow exact recovery and
      does not counts as failed. */
  function CaptureTerminal(request: CaptureRequest, control: Control, outcome: Outcome, exact: bool): EventKind {
    if outcome.Completed? && request.forRecovery && control.recovery.ExactPriorState? && !exact then EventFailed
    else TerminalOf(outcome)
  }

  function DomainOf(kind: EffectKind): Option<Domain> {
    match kind
    case SynchronizeIncomingStaging => Some(IncomingStaging)
    case SynchronizeRecoveryStaging => Some(RecoveryStaging)
    case SynchronizeActiveNamespace | SynchronizeRecoveredNamespace => Some(ActiveNamespace)
    case SynchronizeRejectedStore => Some(RejectedStore)
    case SynchronizeCompletedEvidence => Some(CompletedEvidenceDomain)
    case _ => None
  }

  /** Whether a terminal event and its replay fact belong together and to
      their effect. */
  predicate SlotFits(job: Job, key: Key, kind: EventKind, fact: Option<Fact>) {
    match key.kind
    case ObserveResult | SealReceipt => fact.None?
    case PublishCompletedEvidence => if kind.EventCompleted? then fact.Some? && fact.value.EvidenceFact? else fact.None?
    case StageIncomingPayload =>
      && fact.Some? && fact.value.StageFact?
      && !fact.value.outcome.ConditionalRetained? && kind == TerminalOf(fact.value.outcome)
    case CaptureOldObject =>
      && fact.Some? && fact.value.CaptureFact? && key.path == Some(fact.value.path)
      && !fact.value.outcome.ConditionalRetained?
      && exists request :: request in job.captures && request.path == fact.value.path
                           && kind == CaptureTerminal(request, job.control, fact.value.outcome, fact.value.exact)
    case PublishRejectedObject =>
      && fact.Some? && fact.value.RejectedFact? && key.path == Some(fact.value.path)
      && !fact.value.outcome.ConditionalRetained? && kind == TerminalOf(fact.value.outcome)
    case PublishActiveObject =>
      && fact.Some? && fact.value.ActiveFact? && key.path == Some(fact.value.path) && kind == TerminalOf(fact.value.outcome)
    case RecoverActiveObject =>
      && fact.Some? && fact.value.RecoveryFact? && key.path == Some(fact.value.path)
      && !fact.value.outcome.ConditionalRetained? && kind == TerminalOf(fact.value.outcome)
    case _ =>
      && fact.Some? && fact.value.SynchronizationFact? && Some(fact.value.domain) == DomainOf(key.kind)
      && !fact.value.status.NotAttempted? && kind == StatusTerminal(fact.value.status)
  }

  ghost predicate FactsFit(job: Job, ledger: Ledger) {
    forall key :: At(ledger, key).Done? ==> SlotFits(job, key, At(ledger, key).kind, At(ledger, key).fact)
  }

  /** Every declared effect of these kinds has completed. */
  ghost predicate Finished(job: Job, ledger: Ledger, kinds: set<EffectKind>) {
    forall key: Key :: key.kind in kinds && JobDeclares(job, key) ==> CompletedSlot(At(ledger, key))
  }

  function PreparationKinds(): set<EffectKind> {
    {CaptureOldObject, StageIncomingPayload, SynchronizeIncomingStaging, SynchronizeRecoveryStaging}
  }

  /** Nothing is mutated before everything is captured, staged and durable. */
  ghost predicate PreparedGate(job: Job, ledger: Ledger) {
    ledger.state.Preparing? || ledger.state.Abandoned? || Finished(job, ledger, PreparationKinds())
  }

  ghost predicate RejectedPublished(job: Job, ledger: Ledger) {
    forall q :: q in job.rejected ==> Recorded(ledger, PublishRejectedObject, q) == Some(Completed)
  }

  function RejectedSync(): Key {
    Key(SynchronizeRejectedStore, None)
  }

  /** The rejected store is synchronized after all rejected objects, and the
      durability the facts add up to is the one it reported. */
  ghost predicate SyncGate(job: Job, ledger: Ledger) {
    && (!At(ledger, RejectedSync()).Idle? ==> RejectedPublished(job, ledger))
    && (At(ledger, RejectedSync()).Done? ==>
          At(ledger, RejectedSync()).fact == Some(SynchronizationFact(RejectedStore, ledger.durability.rejected)))
  }

  function ActiveSync(): Key {
    Key(SynchronizeActiveNamespace, None)
  }

  function EvidenceKey(): Key {
    Key(PublishCompletedEvidence, None)
  }

  function EvidenceSync(): Key {
    Key(SynchronizeCompletedEvidence, None)
  }

  function SealKey(): Key {
    Key(SealReceipt, None)
  }

  ghost predicate ActivePassed(job: Job, ledger: Ledger) {
    forall p :: p in job.active ==> Passed(ledger, p)
  }

  /** Some active effect completed. */
  predicate ActiveChanged(job: Job, ledger: Ledger) {
    exists p :: p in job.active && Recorded(ledger, PublishActiveObject, p) == Some(Completed)
  }

  /** No recovery has concluded. */
  ghost predicate NothingRecovered(ledger: Ledger) {
    (forall p :: !SlotAt(ledger, RecoverActiveObject, p).Done?) && !At(ledger, RecoveredSync()).Done?
  }

  /** The active namespace is synchronized, and results are observed, after all
      active effects; until something is recovered the durability of the
      namespace is the one its synchronization reported. */
  ghost predicate ActiveGate(job: Job, ledger: Ledger) {
    && (!At(ledger, ActiveSync()).Idle? ==> ActivePassed(job, ledger))
    && (forall p :: !SlotAt(ledger, ObserveResult, p).Idle? ==> ActivePassed(job, ledger))
    && (At(ledger, ActiveSync()).Done? && NothingRecovered(ledger) ==>
          At(ledger, ActiveSync()).fact == Some(SynchronizationFact(ActiveNamespace, ledger.durability.active)))
  }

  /** Every candidate was undone. */
  ghost predicate AllRecovered(ledger: Ledger, candidates: seq<Path>) {
    forall p :: p in candidates ==> Recorded(ledger, RecoverActiveObject, p) == Some(Completed)
  }

  /** The recovered namespace is synchronized after everything was undone, and
      its durability is then the one that this synchronization reported. */
  ghost predicate RecoveredGate(job: Job, ledger: Ledger) {
    && (!At(ledger, RecoveredSync()).Idle? ==> AllRecovered(ledger, Candidates(ledger, job.active)))
    && (At(ledger, RecoveredSync()).Done? ==>
          At(ledger, RecoveredSync()).fact == Some(SynchronizationFact(ActiveNamespace, ledger.durability.active)))
  }

  /** The completed evidence is synchronized after it was published, and its
      durability is the one that its synchronization reported. */
  ghost predicate EvidenceGate(ledger: Ledger) {
    && (!At(ledger, EvidenceSync()).Idle? ==> CompletedSlot(At(ledger, EvidenceKey())))
    && (At(ledger, EvidenceSync()).Done? ==>
          At(ledger, EvidenceSync()).fact == Some(SynchronizationFact(CompletedEvidenceDomain, ledger.durability.completed)))
  }

  predicate PastRejected(state: State) {
    state.RecoveryPending? || state.StateIndeterminate? || state.Recovering? || PastActive(state)
  }

  predicate PastActive(state: State) {
    state.EffectsVisible? || state.ResultObserved?
  }

  ghost predicate RejectedBehind(job: Job, ledger: Ledger) {
    RejectedPublished(job, ledger) && RejectedDurable(job, ledger)
  }

  /** Everything active went through, and is durable where that is asked for. */
  ghost predicate ActiveBehind(job: Job, ledger: Ledger) {
    && ActivePassed(job, ledger)
    && (ActiveChanged(job, ledger) && AllDomainsRequired(job.control) ==> CompletedSlot(At(ledger, ActiveSync())))
  }

  /** The journal may go on in this state. */
  ghost predicate Reaches(job: Job, ledger: Ledger, state: State) {
    && (PastRejected(state) && !PastRejected(ledger.state) ==> RejectedBehind(job, ledger))
    && (PastActive(state) && !PastActive(ledger.state) ==> ActiveBehind(job, ledger))
  }

  /** Without a receipt, a state says what is behind it. */
  ghost predicate PhaseGate(job: Job, ledger: Ledger) {
    ledger.receipt.None? ==>
      && (PastRejected(ledger.state) ==> RejectedBehind(job, ledger))
      && (PastActive(ledger.state) ==> ActiveBehind(job, ledger))
      && !At(ledger, SealKey()).Done?
  }

  /** Exactly the receipt of a completed attempt is in a successful state. */
  ghost predicate OutcomeGate(receipt: Option<Receipt>, state: State) {
    receipt.Some? ==> (receipt.value.outcome.AttemptCompleted? <==> Successful(state))
  }

  ghost predicate LedgerOk(job: Job, ledger: Ledger) {
    && FactsFit(job, ledger) && PreparedGate(job, ledger) && SyncGate(job, ledger)
    && ActiveGate(job, ledger) && RecoveredGate(job, ledger) && EvidenceGate(ledger) && PhaseGate(job, ledger)
    && OutcomeGate(ledger.receipt, ledger.state)
  }

  /** The other effects whose facts concern the active namespace. */
  predicate BeforeRecovered(key: Key) {
    key.kind.PublishActiveObject? || key.kind.RecoverActiveObject? || key == ActiveSync()
  }

  /** An entry the journal itself has no objection to. */
  ghost predicate EntryFits(job: Job, ledger: Ledger, entry: Entry) {
    && (entry.move.Some? ==>
          && MoveAllowed(ledger, entry.move.value)
          && (!entry.move.value.kind.Intent? ==>
                SlotFits(job, entry.move.value.key, entry.move.value.kind, entry.move.value.fact))
          && (entry.move.value.key == RejectedSync() ==> RejectedPublished(job, ledger))
          && (entry.move.value.key == ActiveSync() || entry.move.value.key.kind.ObserveResult? ==> ActivePassed(job, ledger))
          && (entry.move.value.key == RecoveredSync() ==> AllRecovered(ledger, Candidates(ledger, job.active)))
          && (BeforeRecovered(entry.move.value.key) ==> At(ledger, RecoveredSync()).Idle?)
          && (entry.move.value.key == EvidenceSync() ==> CompletedSlot(At(ledger, EvidenceKey())))
          && (entry.move.value.key == SealKey() ==> entry.move.value.kind.Intent? || entry.receipt.Some?))
    && (ledger.receipt.Some? ==> entry.receipt.Some?)
    && (entry.receipt.None? ==> Reaches(job, ledger, entry.state))
    && (ledger.state.Preparing? && !entry.state.Preparing? && !entry.state.Abandoned? ==>
          Finished(job, Enter(ledger, entry), PreparationKinds()))
    && (ledger.state.Abandoned? ==> entry.state.Abandoned?)
    && OutcomeGate(entry.receipt, entry.state)
  }

  lemma KeepFacts(job: Job, ledger: Ledger, entry: Entry)
    requires FactsFit(job, ledger) && EntryFits(job, ledger, entry)
    ensures FactsFit(job, Enter(ledger, entry))
  {
    var next := Enter(ledger, entry);
    forall key | At(next, key).Done? ensures SlotFits(job, key, At(next, key).kind, At(next, key).fact) {
      if entry.move.None? || key != entry.move.value.key {
        assert At(next, key) == At(ledger, key);
      }
    }
  }

  lemma KeepPrepared(job: Job, ledger: Ledger, entry: Entry)
    requires PreparedGate(job, ledger) && EntryFits(job, ledger, entry)
    ensures PreparedGate(job, Enter(ledger, entry))
  {
    var next := Enter(ledger, entry);
    assert forall key :: CompletedSlot(At(ledger, key)) ==> CompletedSlot(At(next, key));
  }

  lemma KeepSync(job: Job, ledger: Ledger, entry: Entry)
    requires SyncGate(job, ledger) && EntryFits(job, ledger, entry) && OnlyDeclared(job, ledger)
    requires entry.move.Some? ==> JobDeclares(job, entry.move.value.key)
    ensures SyncGate(job, Enter(ledger, entry))
  {
    var next := Enter(ledger, entry);
    if RejectedPublished(job, ledger) {
      forall q | q in job.rejected ensures Recorded(next, PublishRejectedObject, q) == Some(Completed) {
        assert SlotAt(ledger, PublishRejectedObject, q).Done?;
      }
    }
    assert entry.move.Some? && entry.move.value.key.kind.PublishRejectedObject? && RejectedPublished(job, ledger) ==>
             Recorded(ledger, PublishRejectedObject, entry.move.value.key.path.value) == Some(Completed);
  }

  /** Slots that are done stay as they are. */
  ghost predicate DoneKept(before: Ledger, after: Ledger) {
    forall key :: At(before, key).Done? ==> At(after, key) == At(before, key)
  }

  lemma PassedKept(job: Job, before: Ledger, after: Ledger)
    requires DoneKept(before, after) && ActivePassed(job, before)
    ensures ActivePassed(job, after)
    ensures ActiveChanged(job, after) ==> ActiveChanged(job, before)
    ensures forall p :: p in job.active ==> SlotAt(after, PublishActiveObject, p) == SlotAt(before, PublishActiveObject, p)
  {
    forall p | p in job.active
      ensures SlotAt(after, PublishActiveObject, p) == SlotAt(before, PublishActiveObject, p) && Passed(after, p)
    {
      assert Passed(before, p);
    }
  }

  lemma BehindKept(job: Job, before: Ledger, after: Ledger)
    requires DoneKept(before, after)
    ensures RejectedBehind(job, before) ==> RejectedBehind(job, after)
    ensures ActiveBehind(job, before) ==> ActiveBehind(job, after)
  {
    if RejectedBehind(job, before) {
      forall q | q in job.rejected ensures Recorded(after, PublishRejectedObject, q) == Some(Completed) {
        assert Recorded(before, PublishRejectedObject, q) == Some(Completed);
        assert SlotAt(before, PublishRejectedObject, q).Done?;
      }
    }
    if ActiveBehind(job, before) {
      PassedKept(job, before, after);
    }
  }

  lemma KeepPhase(job: Job, ledger: Ledger, entry: Entry)
    requires PhaseGate(job, ledger) && EntryFits(job, ledger, entry)
    ensures PhaseGate(job, Enter(ledger, entry))
  {
    BehindKept(job, ledger, Enter(ledger, entry));
  }

  /** A fact of another effect leaves the durability of the namespace. */
  lemma NamespaceKept(job: Job, ledger: Ledger, entry: Entry)
    requires entry.move.Some? && !entry.move.value.kind.Intent?
    requires SlotFits(job, entry.move.value.key, entry.move.value.kind, entry.move.value.fact)
    requires entry.move.value.key.kind !in
               {PublishActiveObject, RecoverActiveObject, SynchronizeActiveNamespace, SynchronizeRecoveredNamespace}
    ensures Enter(ledger, entry).durability.active == ledger.durability.active
  {
  }

  lemma KeepActiveGate(job: Job, ledger: Ledger, entry: Entry)
    requires ActiveGate(job, ledger) && EntryFits(job, ledger, entry)
    requires entry.move.Some? ==> JobDeclares(job, entry.move.value.key)
    ensures ActiveGate(job, Enter(ledger, entry))
  {
    var next := Enter(ledger, entry);
    assert forall p :: SlotAt(next, ObserveResult, p) != SlotAt(ledger, ObserveResult, p) ==> ActivePassed(job, ledger);
    if ActivePassed(job, ledger) {
      PassedKept(job, ledger, next);
    }
    if At(next, ActiveSync()).Done? && NothingRecovered(next) {
      NamespaceDurability(job, ledger, entry);
    }
  }

  lemma NamespaceDurability(job: Job, ledger: Ledger, entry: Entry)
    requires ActiveGate(job, ledger) && EntryFits(job, ledger, entry)
    requires entry.move.Some? ==> JobDeclares(job, entry.move.value.key)
    requires At(Enter(ledger, entry), ActiveSync()).Done? && NothingRecovered(Enter(ledger, entry))
    ensures At(Enter(ledger, entry), ActiveSync()).fact ==
            Some(SynchronizationFact(ActiveNamespace, Enter(ledger, entry).durability.active))
  {
    var next := Enter(ledger, entry);
    forall p ensures !SlotAt(ledger, RecoverActiveObject, p).Done? {
      assert !SlotAt(next, RecoverActiveObject, p).Done?;
    }
    assert NothingRecovered(ledger);
    if entry.move.Some? && !entry.move.value.kind.Intent? && entry.move.value.key != ActiveSync() {
      var key := entry.move.value.key;
      assert key.kind.PublishActiveObject? ==> Passed(ledger, key.path.value);
      assert key.kind.RecoverActiveObject? ==> SlotAt(next, RecoverActiveObject, key.path.value).Done?;
      NamespaceKept(job, ledger, entry);
    }
  }

  lemma KeepRecovered(job: Job, ledger: Ledger, entry: Entry)
    requires RecoveredGate(job, ledger) && EntryFits(job, ledger, entry) && OnlyDeclared(job, ledger)
    requires entry.move.Some? ==> JobDeclares(job, entry.move.value.key)
    ensures RecoveredGate(job, Enter(ledger, entry))
  {
    var next := Enter(ledger, entry);
    if !At(next, RecoveredSync()).Idle? {
      forall p ensures SlotAt(next, PublishActiveObject, p) == SlotAt(ledger, PublishActiveObject, p)
                       && SlotAt(next, RecoverActiveObject, p) == SlotAt(ledger, RecoverActiveObject, p)
      {
        assert entry.move.Some? ==> BeforeRecovered(Key(PublishActiveObject, Some(p))) && BeforeRecovered(Key(RecoverActiveObject, Some(p)));
      }
      CandidatesSame(ledger, next, job.active);
      if entry.move.Some? && !entry.move.value.kind.Intent? && entry.move.value.key != RecoveredSync() {
        NamespaceKept(job, ledger, entry);
      }
    }
  }

  lemma KeepEvidence(job: Job, ledger: Ledger, entry: Entry)
    requires EvidenceGate(ledger) && EntryFits(job, ledger, entry) && OnlyDeclared(job, ledger)
    requires entry.move.Some? ==> JobDeclares(job, entry.move.value.key)
    ensures EvidenceGate(Enter(ledger, entry))
  {
  }

  lemma KeepLedger(job: Job, ledger: Ledger, entry: Entry)
    requires LedgerOk(job, ledger) && EntryFits(job, ledger, entry) && OnlyDeclared(job, ledger)
    requires entry.move.Some? ==> JobDeclares(job, entry.move.value.key)
    ensures LedgerOk(job, Enter(ledger, entry))
  {
    KeepFacts(job, ledger, entry);
    KeepPrepared(job, ledger, entry);
    KeepSync(job, ledger, entry);
    KeepPhase(job, ledger, entry);
    KeepActiveGate(job, ledger, entry);
    KeepEvidence(job, ledger, entry);
    KeepRecovered(job, ledger, entry);
  }

  // ---------------------------------------------------------------- what published evidence says

  function PresenceOf(seed: Seed, p: Path): Presence {
    if p in seed then seed[p] else Unobserved
  }

  /** The presence of a path whose result matches its decision. */
  function ExpectedAfter(decision: Decision, effect: Option<Outcome>, before: Presence): After {
    match decision.active
    case ActivateIncoming => Observed(true)
    case RetainObserved => Observed(before.Present?)
    case RemoveObserved | RemainAbsent => Observed(false)
    case RemoveDirectoryIfEmpty => Observed(effect == Some(ConditionalRetained) && before.Present?)
  }

  /** The consequence of a planned path in completed evidence is determined by
      the plan, the seed and the journal. */
  function EvidencePath(job: Job, seed: Seed, ledger: Ledger, i: nat): Consequence
    requires i < |job.plan|
  {
    var p := job.plan[i].path;
    var active := Recorded(ledger, PublishActiveObject, p);
    Consequence(p, if active.None? then Some(Completed) else active, Recorded(ledger, PublishRejectedObject, p),
                ExpectedAfter(job.plan[i], active, PresenceOf(seed, p)), true)
  }

  /** The evidence is that of this attempt. */
  ghost predicate EvidenceRight(job: Job, seed: Seed, ledger: Ledger, evidence: CompletedEvidence) {
    && |evidence.paths| == |job.plan|
    && (forall i :: 0 <= i < |job.plan| ==> evidence.paths[i] == EvidencePath(job, seed, ledger, i))
    && CompletedEvidenceOf(job, seed, evidence.projection, evidence.paths, evidence.durability) == Some(evidence)
    && ActivePassed(job, ledger) && RejectedPublished(job, ledger)
  }

  /** The evidence that was published is that of this attempt. */
  ghost predicate EvidenceOk(job: Job, seed: Seed, ledger: Ledger) {
    match At(ledger, EvidenceKey())
    case Done(EventCompleted, Some(EvidenceFact(e))) => EvidenceRight(job, seed, ledger, e)
    case _ => true
  }

  ghost predicate EvidenceFits(job: Job, seed: Seed, ledger: Ledger, move: Move) {
    move.key == EvidenceKey() && move.kind.EventCompleted? && move.fact.Some? && move.fact.value.EvidenceFact? ==>
      EvidenceRight(job, seed, ledger, move.fact.value.published)
  }

  lemma RightKept(job: Job, seed: Seed, before: Ledger, after: Ledger, evidence: CompletedEvidence)
    requires EvidenceRight(job, seed, before, evidence) && DoneKept(before, after)
    requires OnlyDeclared(job, before) && OnlyDeclared(job, after)
    ensures EvidenceRight(job, seed, after, evidence)
  {
    PassedKept(job, before, after);
    forall q | q in job.rejected
      ensures SlotAt(after, PublishRejectedObject, q) == SlotAt(before, PublishRejectedObject, q)
    {
      assert Recorded(before, PublishRejectedObject, q) == Some(Completed);
    }
    forall q ensures Recorded(after, PublishActiveObject, q) == Recorded(before, PublishActiveObject, q)
                     && Recorded(after, PublishRejectedObject, q) == Recorded(before, PublishRejectedObject, q)
    {
      Undeclared(job, before, q);
      Undeclared(job, after, q);
    }
    assert forall i :: 0 <= i < |job.plan| ==> EvidencePath(job, seed, after, i) == EvidencePath(job, seed, before, i);
  }

  lemma Undeclared(job: Job, ledger: Ledger, q: Path)
    requires OnlyDeclared(job, ledger)
    ensures q !in job.active ==> SlotAt(ledger, PublishActiveObject, q).Idle?
    ensures q !in job.rejected ==> SlotAt(ledger, PublishRejectedObject, q).Idle?
  {
    assert q !in job.active ==> !JobDeclares(job, Key(PublishActiveObject, Some(q)));
    assert q !in job.rejected ==> !JobDeclares(job, Key(PublishRejectedObject, Some(q)));
  }

  lemma KeepRight(job: Job, seed: Seed, ledger: Ledger, entry: Entry)
    requires EvidenceOk(job, seed, ledger) && EntryFits(job, ledger, entry)
    requires OnlyDeclared(job, ledger) && OnlyDeclared(job, Enter(ledger, entry))
    requires entry.move.Some? ==> EvidenceFits(job, seed, ledger, entry.move.value)
    ensures EvidenceOk(job, seed, Enter(ledger, entry))
  {
    var next := Enter(ledger, entry);
    match At(next, EvidenceKey())
    case Done(EventCompleted, Some(EvidenceFact(e))) => RightKept(job, seed, ledger, next, e);
    case _ =>
  }

  // ---------------------------------------------------------------- the invariant of an attempt

  ghost predicate Inv(job: Job, seed: Seed, ledger: Ledger, trace: Trace) {
    Core(job, seed, ledger, trace) && LedgerOk(job, ledger) && EvidenceOk(job, seed, ledger)
  }

  /** The invariant, folded. */
  ghost predicate Sound(job: Job, seed: Seed, ledger: Ledger, trace: Trace) {
    forall l: Ledger {:trigger Unfold(Soundness, l, ledger)} :: Unfold(Soundness, l, ledger) ==> Inv(job, seed, l, trace)
  }

  lemma SoundMeans(job: Job, seed: Seed, ledger: Ledger, trace: Trace)
    ensures Sound(job, seed, ledger, trace) <==> Inv(job, seed, ledger, trace)
  {
    assert Unfold(Soundness, ledger, ledger);
  }

  // ---------------------------------------------------------------- small facts

  lemma {:induction false} CandidatesSame(a: Ledger, b: Ledger, active: seq<Path>)
    requires forall p :: p in active ==> Recorded(a, PublishActiveObject, p) == Recorded(b, PublishActiveObject, p)
    ensures Candidates(a, active) == Candidates(b, active)
  {
    if active != [] {
      CandidatesSame(a, b, active[..|active| - 1]);
    }
  }

  lemma {:induction false} CandidatesExact(ledger: Ledger, active: seq<Path>, p: Path)
    ensures p in Candidates(ledger, active) <==> p in active && Touched(ledger, p)
  {
    if active != [] {
      var rest := active[..|active| - 1];
      CandidatesExact(ledger, rest, p);
      assert active == rest + [active[|active| - 1]];
    }
  }

  lemma CandidatesMembers(ledger: Ledger, active: seq<Path>)
    ensures forall p :: p in Candidates(ledger, active) <==> p in active && Touched(ledger, p)
  {
    forall p ensures p in Candidates(ledger, active) <==> p in active && Touched(ledger, p) {
      CandidatesExact(ledger, active, p);
    }
  }

  lemma {:induction false} CandidatesDistinct(ledger: Ledger, active: seq<Path>)
    requires Distinct(active)
    ensures Distinct(Candidates(ledger, active))
  {
    if active != [] {
      var rest, last := active[..|active| - 1], active[|active| - 1];
      CandidatesDistinct(ledger, rest);
      CandidatesExact(ledger, rest, last);
      assert last !in rest;
    }
  }

  lemma CallPathsAppend(trace: Trace, call: Call, kind: EffectKind)
    ensures CallPaths(trace + [call], kind) == CallPaths(trace, kind) + (if call.kind == kind then [call.path] else [])
  {
    assert (trace + [call])[..|trace|] == trace;
  }

  lemma HeldAppend(trace: Trace, call: Call, p: Path)
    ensures Held(trace + [call], p) ==
            if call.kind.CaptureOldObject? && call.path == p then Some((call.outcome, call.exact)) else Held(trace, p)
  {
    assert (trace + [call])[..|trace|] == trace;
  }

  lemma {:induction false} CalledIn(trace: Trace, kind: EffectKind, p: Path)
    ensures p in CallPaths(trace, kind) <==> exists i :: 0 <= i < |trace| && trace[i].kind == kind && trace[i].path == p
  {
    if trace != [] {
      var rest := trace[..|trace| - 1];
      CalledIn(rest, kind, p);
      assert forall i :: 0 <= i < |rest| ==> rest[i] == trace[i];
    }
  }

  /** A mechanism whose slot is idle was never called on that path. */
  lemma IdleUncalled(ledger: Ledger, trace: Trace, kind: EffectKind, p: Path)
    requires Linked(ledger, trace) && Mechanism(kind) && SlotAt(ledger, kind, p).Idle?
    ensures p !in CallPaths(trace, kind)
  {
    CalledIn(trace, kind, p);
  }

  lemma {:induction false} PrefixLength(prefix: seq<Path>, all: seq<Path>, k: nat)
    requires prefix <= all && k < |all| && Distinct(all)
    requires forall i :: 0 <= i < k ==> all[i] in prefix
    ensures |prefix| >= k
    ensures all[k] !in prefix ==> prefix == all[..k]
  {
    if k > 0 {
      PrefixLength(prefix, all, k - 1);
      var j :| 0 <= j < |prefix| && prefix[j] == all[k - 1];
      assert j == k - 1;
    }
    if |prefix| > k {
      assert prefix[k] == all[k];
    }
  }

  // ---------------------------------------------------------------- keeping the invariant

  predicate Neutral(kind: EffectKind) {
    !Mechanism(kind) && !kind.CaptureOldObject?
  }

  ghost predicate SameMechanisms(a: Ledger, b: Ledger) {
    forall kind, p :: Mechanism(kind) ==> SlotAt(a, kind, p) == SlotAt(b, kind, p)
  }

  ghost predicate SameCaptures(a: Ledger, b: Ledger) {
    forall p :: SlotAt(a, CaptureOldObject, p) == SlotAt(b, CaptureOldObject, p)
  }

  /** Ledgers that agree on the mechanisms have the same shape. */
  lemma SameShape(job: Job, a: Ledger, b: Ledger, trace: Trace)
    requires SameMechanisms(a, b)
    ensures Candidates(a, job.active) == Candidates(b, job.active)
    ensures At(a, RecoveredSync()) == At(b, RecoveredSync()) ==> (RecoverIdle(a) <==> RecoverIdle(b))
    ensures RejectedShape(job, a) ==> RejectedShape(job, b)
    ensures ActiveShape(job, a) ==> ActiveShape(job, b)
    ensures RecoverShape(job, a) ==> RecoverShape(job, b)
    ensures CallOrder(job, a, trace) ==> CallOrder(job, b, trace)
    ensures Linked(a, trace) ==> Linked(b, trace)
  {
    CandidatesSame(a, b, job.active);
    assert forall p :: Recorded(a, RecoverActiveObject, p) == Recorded(b, RecoverActiveObject, p);
    assert forall p :: Recorded(a, PublishActiveObject, p) == Recorded(b, PublishActiveObject, p);
    assert forall p :: Recorded(a, PublishRejectedObject, p) == Recorded(b, PublishRejectedObject, p);
  }

  /** A completed synchronization stays completed. */
  lemma GateKept(job: Job, ledger: Ledger, next: Ledger)
    requires DurableGate(job, ledger)
    requires forall p :: Recorded(next, PublishActiveObject, p) == Recorded(ledger, PublishActiveObject, p)
    requires CompletedSlot(At(ledger, Key(SynchronizeRejectedStore, None))) ==>
               CompletedSlot(At(next, Key(SynchronizeRejectedStore, None)))
    ensures DurableGate(job, next)
  {
  }

  lemma TruthfulSame(job: Job, seed: Seed, a: Ledger, b: Ledger, receipt: Receipt)
    requires Truthful(job, seed, a, receipt) && SameMechanisms(a, b) && SameCaptures(a, b)
    ensures Truthful(job, seed, b, receipt)
  {
    CandidatesSame(a, b, job.active);
  }

  /** A step that concerns no capture and no mechanism: a state change, a
      synchronization, an observation, a receipt. */
  lemma KeepNeutral(job: Job, seed: Seed, ledger: Ledger, trace: Trace, entry: Entry)
    requires Core(job, seed, ledger, trace)
    requires entry.move.Some? ==> Neutral(entry.move.value.key.kind) && JobDeclares(job, entry.move.value.key)
                                  && MoveAllowed(ledger, entry.move.value)
    requires BeforeMutation(entry.state) ==> BeforeMutation(ledger.state)
    requires !RecoverIdle(Enter(ledger, entry)) ==> entry.state.Recovering? || entry.receipt.Some?
    requires entry.receipt.Some? ==> Truthful(job, seed, ledger, entry.receipt.value)
    ensures Core(job, seed, Enter(ledger, entry), trace)
  {
    var next := Enter(ledger, entry);
    assert SameMechanisms(ledger, next) && SameCaptures(ledger, next);
    SameShape(job, ledger, next, trace);
    GateKept(job, ledger, next);
    if entry.receipt.Some? {
      TruthfulSame(job, seed, ledger, next, entry.receipt.value);
    }
  }

  lemma KeepCapture(job: Job, seed: Seed, ledger: Ledger, trace: Trace, entry: Entry, p: Path)
    requires Core(job, seed, ledger, trace) && entry.receipt.None? && ledger.receipt.None?
    requires entry.move.Some? && entry.move.value.key == Key(CaptureOldObject, Some(p)) && JobDeclares(job, entry.move.value.key)
    requires BeforeMutation(ledger.state) && BeforeMutation(entry.state)
    requires !entry.move.value.kind.Intent? ==>
               && Held(trace, p).Some?
               && entry.move.value.fact == Some(CaptureFact(p, Held(trace, p).value.0, Held(trace, p).value.1))
    ensures Core(job, seed, Enter(ledger, entry), trace)
  {
    var next := Enter(ledger, entry);
    assert SameMechanisms(ledger, next);
    SameShape(job, ledger, next, trace);
    GateKept(job, ledger, next);
    CaptureNoted(ledger, trace, entry, p);
    PhaseSame(ledger, next);
  }

  lemma PhaseSame(ledger: Ledger, next: Ledger)
    requires PhaseOk(ledger) && SameMechanisms(ledger, next)
    requires BeforeMutation(ledger.state) && BeforeMutation(next.state) && ledger.receipt.None?
    requires At(next, RecoveredSync()) == At(ledger, RecoveredSync())
    ensures PhaseOk(next)
  {
    assert RecoverIdle(next) by {
      assert forall p :: SlotAt(next, RecoverActiveObject, p).Idle?;
    }
  }

  lemma CaptureNoted(ledger: Ledger, trace: Trace, entry: Entry, p: Path)
    requires CapturesHeld(ledger, trace)
    requires entry.move.Some? && entry.move.value.key == Key(CaptureOldObject, Some(p))
    requires HeldFact(SlotAfter(entry.move.value), trace, p)
    ensures CapturesHeld(Enter(ledger, entry), trace)
  {
    var next := Enter(ledger, entry);
    assert forall q :: q != p ==> SlotAt(next, CaptureOldObject, q) == SlotAt(ledger, CaptureOldObject, q);
    assert SlotAt(next, CaptureOldObject, p) == SlotAfter(entry.move.value);
  }

  lemma KeepCaptureCall(job: Job, seed: Seed, ledger: Ledger, trace: Trace, call: Call)
    requires Core(job, seed, ledger, trace) && call.kind.CaptureOldObject?
    requires BeforeMutation(ledger.state) && !SlotAt(ledger, CaptureOldObject, call.path).Done?
    ensures Core(job, seed, ledger, trace + [call])
  {
    forall kind ensures CallPaths(trace + [call], kind) == CallPaths(trace, kind) + (if call.kind == kind then [call.path] else []) {
      CallPathsAppend(trace, call, kind);
    }
    forall p ensures Held(trace + [call], p) == if call.path == p then Some((call.outcome, call.exact)) else Held(trace, p) {
      HeldAppend(trace, call, p);
    }
  }

  // ---------------------------------------------------------------- one mechanism at a time

  /** The entry concerns the mechanism `kind` on `p`. */
  predicate Concerns(job: Job, entry: Entry, kind: EffectKind, p: Path) {
    && Mechanism(kind)
    && entry.receipt.None?
    && entry.move.Some? && entry.move.value.key == Key(kind, Some(p)) && JobDeclares(job, entry.move.value.key)
    && !BeforeMutation(entry.state)
  }

  /** The mechanism is done with the path and may go on to the next. */
  predicate Cleared(ledger: Ledger, kind: EffectKind, p: Path) {
    Recorded(ledger, kind, p) == Some(Completed)
    || (kind.PublishActiveObject? && Recorded(ledger, kind, p) == Some(ConditionalRetained))
  }

  /** No recovery has begun, and all rejected objects are published. */
  ghost predicate ActiveMayRun(job: Job, ledger: Ledger) {
    && RecoverIdle(ledger) && RejectedDurable(job, ledger)
    && forall q :: q in job.rejected ==> Recorded(ledger, PublishRejectedObject, q) == Some(Completed)
  }

  /** It is the turn of the k-th path of a mechanism. */
  ghost predicate Turn(job: Job, ledger: Ledger, kind: EffectKind, k: nat) {
    && k < |Turns(job, ledger, kind)|
    && (forall i :: 0 <= i < k ==> Cleared(ledger, kind, Turns(job, ledger, kind)[i]))
    && (kind.PublishActiveObject? ==> ActiveMayRun(job, ledger))
  }

  lemma TurnsDistinct(job: Job, ledger: Ledger, kind: EffectKind)
    requires JobOk(job)
    ensures Distinct(Turns(job, ledger, kind))
  {
    RejectedDistinct(job.plan);
    CandidatesDistinct(ledger, job.active);
  }

  /** A mechanism is called when its turn has come and its intent is durable
      and it was never called before. */
  lemma KeepCall(job: Job, seed: Seed, ledger: Ledger, trace: Trace, call: Call, k: nat)
    requires Core(job, seed, ledger, trace)
    requires Turn(job, ledger, call.kind, k) && call.path == Turns(job, ledger, call.kind)[k]
    requires SlotAt(ledger, call.kind, call.path).Intended? && call.path !in CallPaths(trace, call.kind)
    ensures Core(job, seed, ledger, trace + [call])
  {
    LinkedCall(ledger, trace, call);
    TurnsDistinct(job, ledger, call.kind);
    CallsFollow(CallPaths(trace, call.kind), Turns(job, ledger, call.kind), ledger, call.kind, k);
    RanksRise(job, ledger, trace, call, k);
    OrderedCall(job, ledger, trace, call);
    forall p ensures Held(trace + [call], p) == Held(trace, p) {
      HeldAppend(trace, call, p);
    }
  }

  lemma LinkedCall(ledger: Ledger, trace: Trace, call: Call)
    requires Linked(ledger, trace) && SlotAt(ledger, call.kind, call.path).Intended?
    ensures Linked(ledger, trace + [call])
  {
    forall kind ensures CallPaths(trace + [call], kind) == CallPaths(trace, kind) + (if call.kind == kind then [call.path] else []) {
      CallPathsAppend(trace, call, kind);
    }
  }

  lemma OrderedCall(job: Job, ledger: Ledger, trace: Trace, call: Call)
    requires CallOrder(job, ledger, trace) && Mechanism(call.kind)
    requires forall i :: 0 <= i < |trace| ==> Rank(trace[i].kind) <= Rank(call.kind)
    requires CallPaths(trace, call.kind) + [call.path] <= Turns(job, ledger, call.kind)
    ensures CallOrder(job, ledger, trace + [call])
  {
    forall kind | Mechanism(kind) ensures CallPaths(trace + [call], kind) <= Turns(job, ledger, kind) {
      PrefixCall(trace, call, kind, Turns(job, ledger, kind));
    }
    RanksExtend(trace, call);
  }

  lemma PrefixCall(trace: Trace, call: Call, kind: EffectKind, all: seq<Path>)
    requires CallPaths(trace, kind) <= all
    requires call.kind == kind ==> CallPaths(trace, kind) + [call.path] <= all
    ensures CallPaths(trace + [call], kind) <= all
  {
    CallPathsAppend(trace, call, kind);
  }

  lemma RanksExtend(trace: Trace, call: Call)
    requires RanksAscend(trace) && forall i :: 0 <= i < |trace| ==> Rank(trace[i].kind) <= Rank(call.kind)
    ensures RanksAscend(trace + [call])
  {
    var next := trace + [call];
    forall i, j | 0 <= i < j < |next| ensures Rank(next[i].kind) <= Rank(next[j].kind) {
      assert next[i] == trace[i];
    }
  }

  lemma CallsFollow(calls: seq<Path>, turns: seq<Path>, ledger: Ledger, kind: EffectKind, k: nat)
    requires calls <= turns && Distinct(turns) && k < |turns| && turns[k] !in calls
    requires forall p :: SlotAt(ledger, kind, p).Done? ==> p in calls
    requires forall i :: 0 <= i < k ==> Cleared(ledger, kind, turns[i])
    ensures calls + [turns[k]] <= turns
  {
    forall i | 0 <= i < k ensures turns[i] in calls {
      assert Cleared(ledger, kind, turns[i]);
      assert SlotAt(ledger, kind, turns[i]).Done?;
    }
    PrefixLength(calls, turns, k);
  }

  /** A call of a later phase would have left marks that forbid this one. */
  lemma NoLaterCall(job: Job, ledger: Ledger, trace: Trace, call: Call, k: nat, i: nat)
    requires Linked(ledger, trace) && ActiveShape(job, ledger) && RecoverShape(job, ledger) && OnlyDeclared(job, ledger)
    requires Turn(job, ledger, call.kind, k) && call.path == Turns(job, ledger, call.kind)[k]
    requires SlotAt(ledger, call.kind, call.path).Intended? && i < |trace| && Mechanism(trace[i].kind)
    ensures Rank(trace[i].kind) <= Rank(call.kind)
  {
    hide Candidates, CallPaths, RejectedDurable;
    var c := trace[i];
    assert Reports(SlotAt(ledger, c.kind, c.path), c);
    assert Recorded(ledger, c.kind, c.path).Some? && Key(c.kind, Some(c.path)) in ledger.slots;
    if c.kind.RecoverActiveObject? {
      CandidatesExact(ledger, job.active, c.path);
    }
  }

  lemma RanksRise(job: Job, ledger: Ledger, trace: Trace, call: Call, k: nat)
    requires Linked(ledger, trace) && ActiveShape(job, ledger) && RecoverShape(job, ledger) && OnlyDeclared(job, ledger)
    requires Turn(job, ledger, call.kind, k) && call.path == Turns(job, ledger, call.kind)[k]
    requires SlotAt(ledger, call.kind, call.path).Intended?
    ensures forall i :: 0 <= i < |trace| ==> Rank(trace[i].kind) <= Rank(call.kind)
  {
    forall i | 0 <= i < |trace| ensures Rank(trace[i].kind) <= Rank(call.kind) {
      if Mechanism(trace[i].kind) {
        NoLaterCall(job, ledger, trace, call, k, i);
      }
    }
  }

  /** An intent for an idle slot, or the terminal event of the one call that
      was made under the intent. */
  ghost predicate Proceeds(ledger: Ledger, trace: Trace, move: Move, kind: EffectKind, p: Path) {
    if move.kind.Intent? then SlotAt(ledger, kind, p).Idle?
    else
      && SlotAt(ledger, kind, p).Intended? && move.fact.Some?
      && p in CallPaths(trace, kind)
      && forall i :: 0 <= i < |trace| && trace[i].kind == kind && trace[i].path == p ==>
                       Meaning(SlotAfter(move)) == Some(trace[i].outcome)
  }

  lemma OnlySlot(ledger: Ledger, entry: Entry, kind: EffectKind, p: Path)
    requires entry.move.Some? && entry.move.value.key == Key(kind, Some(p))
    ensures SlotAt(Enter(ledger, entry), kind, p) == SlotAfter(entry.move.value)
    ensures forall other, q :: other != kind || q != p ==> SlotAt(Enter(ledger, entry), other, q) == SlotAt(ledger, other, q)
  {
  }

  lemma LinkedMove(ledger: Ledger, trace: Trace, entry: Entry, kind: EffectKind, p: Path)
    requires Linked(ledger, trace) && entry.move.Some? && entry.move.value.key == Key(kind, Some(p))
    requires Proceeds(ledger, trace, entry.move.value, kind, p)
    ensures Linked(Enter(ledger, entry), trace)
  {
    OnlySlot(ledger, entry, kind, p);
  }

  /** What every mechanism step keeps, whichever mechanism it is. */
  lemma KeepLinks(job: Job, ledger: Ledger, trace: Trace, entry: Entry, kind: EffectKind, p: Path)
    requires OnlyDeclared(job, ledger) && Linked(ledger, trace) && CapturesHeld(ledger, trace)
    requires Concerns(job, entry, kind, p) && Proceeds(ledger, trace, entry.move.value, kind, p)
    ensures OnlyDeclared(job, Enter(ledger, entry)) && Linked(Enter(ledger, entry), trace)
    ensures CapturesHeld(Enter(ledger, entry), trace)
    ensures !Cleared(ledger, kind, p)
    ensures forall other, q :: other != kind || q != p ==>
              Recorded(Enter(ledger, entry), other, q) == Recorded(ledger, other, q)
  {
    LinkedMove(ledger, trace, entry, kind, p);
    OnlySlot(ledger, entry, kind, p);
  }

  lemma KeepRejected(job: Job, seed: Seed, ledger: Ledger, trace: Trace, entry: Entry, k: nat)
    requires Core(job, seed, ledger, trace) && Turn(job, ledger, PublishRejectedObject, k)
    requires Concerns(job, entry, PublishRejectedObject, job.rejected[k])
    requires Proceeds(ledger, trace, entry.move.value, PublishRejectedObject, job.rejected[k])
    requires RecoverIdle(ledger)
    ensures Core(job, seed, Enter(ledger, entry), trace)
  {
    var next := Enter(ledger, entry);
    RejectedDistinct(job.plan);
    KeepLinks(job, ledger, trace, entry, PublishRejectedObject, job.rejected[k]);
    CandidatesSame(ledger, next, job.active);
    RejectedMove(job, ledger, next, k);
    GateKept(job, ledger, next);
    RecoverSame(job, ledger, next, trace);
  }

  /** Steps that leave active and recovery slots alone keep their shape. */
  lemma RecoverSame(job: Job, ledger: Ledger, next: Ledger, trace: Trace)
    requires RecoverShape(job, ledger) && CallOrder(job, ledger, trace)
    requires Candidates(next, job.active) == Candidates(ledger, job.active)
    requires forall p :: Recorded(next, RecoverActiveObject, p) == Recorded(ledger, RecoverActiveObject, p)
    requires At(next, RecoveredSync()) == At(ledger, RecoveredSync())
    ensures RecoverShape(job, next) && CallOrder(job, next, trace)
    ensures RecoverIdle(next) <==> RecoverIdle(ledger)
  {
    OrderSame(job, ledger, next, trace);
  }

  lemma RejectedMove(job: Job, ledger: Ledger, next: Ledger, k: nat)
    requires RejectedShape(job, ledger) && ActiveShape(job, ledger) && Turn(job, ledger, PublishRejectedObject, k)
    requires Recorded(ledger, PublishRejectedObject, job.rejected[k]) != Some(Completed)
    requires forall q :: q != job.rejected[k] ==> Recorded(next, PublishRejectedObject, q) == Recorded(ledger, PublishRejectedObject, q)
    requires forall q :: Recorded(next, PublishActiveObject, q) == Recorded(ledger, PublishActiveObject, q)
    requires Distinct(job.rejected)
    ensures RejectedShape(job, next) && ActiveShape(job, next)
  {
    forall i, j | 0 <= i < j < |job.rejected| && Recorded(next, PublishRejectedObject, job.rejected[j]).Some?
      ensures Recorded(next, PublishRejectedObject, job.rejected[i]) == Some(Completed)
    {
      assert Cleared(ledger, PublishRejectedObject, job.rejected[i]) || j != k;
      assert job.rejected[i] != job.rejected[j];
    }
    assert job.rejected[k] in job.rejected;
    assert forall p :: p in job.active ==> Recorded(next, PublishActiveObject, p).None?;
  }

  /** Before any recovery, recovery was never called. */
  lemma RecoverUncalled(ledger: Ledger, trace: Trace)
    requires Linked(ledger, trace)
    ensures RecoverIdle(ledger) ==> CallPaths(trace, RecoverActiveObject) == []
  {
    if CallPaths(trace, RecoverActiveObject) != [] {
      var p := CallPaths(trace, RecoverActiveObject)[0];
      CalledIn(trace, RecoverActiveObject, p);
      assert Recorded(ledger, RecoverActiveObject, p).Some?;
    }
  }

  /** While no recovery has begun, its shape is that of an empty list. */
  lemma IdleShape(job: Job, ledger: Ledger, next: Ledger, trace: Trace)
    requires RecoverIdle(next) && CallOrder(job, ledger, trace) && CallPaths(trace, RecoverActiveObject) == []
    ensures RecoverShape(job, next) && CallOrder(job, next, trace)
  {
    forall kind | Mechanism(kind) ensures CallPaths(trace, kind) <= Turns(job, next, kind) {
      assert CallPaths(trace, kind) <= Turns(job, ledger, kind);
    }
  }

  lemma RecoverStill(ledger: Ledger, next: Ledger)
    requires RecoverIdle(ledger) && At(next, RecoveredSync()) == At(ledger, RecoveredSync())
    requires forall q :: SlotAt(next, RecoverActiveObject, q) == SlotAt(ledger, RecoverActiveObject, q)
    ensures RecoverIdle(next)
  {
    assert forall q :: Recorded(next, RecoverActiveObject, q) == Recorded(ledger, RecoverActiveObject, q);
  }

  lemma KeepActive(job: Job, seed: Seed, ledger: Ledger, trace: Trace, entry: Entry, k: nat)
    requires Core(job, seed, ledger, trace) && Turn(job, ledger, PublishActiveObject, k)
    requires Concerns(job, entry, PublishActiveObject, job.active[k])
    requires Proceeds(ledger, trace, entry.move.value, PublishActiveObject, job.active[k])
    ensures Core(job, seed, Enter(ledger, entry), trace)
  {
    hide CallOrder, RecoverShape, RejectedShape, ActiveShape, Linked, CapturesHeld, OnlyDeclared, Proceeds, RecoverIdle;
    var next := Enter(ledger, entry);
    KeepLinks(job, ledger, trace, entry, PublishActiveObject, job.active[k]);
    ActiveMove(job, ledger, next, k);
    RecoverUncalled(ledger, trace);
    OnlySlot(ledger, entry, PublishActiveObject, job.active[k]);
    RecoverStill(ledger, next);
    IdleShape(job, ledger, next, trace);
  }

  lemma ActiveMove(job: Job, ledger: Ledger, next: Ledger, k: nat)
    requires ActiveShape(job, ledger) && RejectedShape(job, ledger) && Turn(job, ledger, PublishActiveObject, k)
    requires !Cleared(ledger, PublishActiveObject, job.active[k])
    requires forall q :: q != job.active[k] ==> Recorded(next, PublishActiveObject, q) == Recorded(ledger, PublishActiveObject, q)
    requires forall q :: Recorded(next, PublishRejectedObject, q) == Recorded(ledger, PublishRejectedObject, q)
    requires Distinct(job.active)
    ensures RejectedShape(job, next) && ActiveShape(job, next)
  {
    forall i, j | 0 <= i < j < |job.active| && Recorded(next, PublishActiveObject, job.active[j]).Some?
      ensures Passed(next, job.active[i])
    {
      assert Cleared(ledger, PublishActiveObject, job.active[i]) || j != k;
      assert job.active[i] != job.active[j];
    }
  }

  lemma KeepRecover(job: Job, seed: Seed, ledger: Ledger, trace: Trace, entry: Entry, k: nat)
    requires Core(job, seed, ledger, trace) && Turn(job, ledger, RecoverActiveObject, k)
    requires Concerns(job, entry, RecoverActiveObject, Candidates(ledger, job.active)[k])
    requires Proceeds(ledger, trace, entry.move.value, RecoverActiveObject, Candidates(ledger, job.active)[k])
    requires entry.state.Recovering?
    ensures Core(job, seed, Enter(ledger, entry), trace)
  {
    hide CapturesHeld, Linked, Truthful, CallOrder, Proceeds, OnlyDeclared;
    var next := Enter(ledger, entry);
    KeepLinks(job, ledger, trace, entry, RecoverActiveObject, Candidates(ledger, job.active)[k]);
    CandidatesSame(ledger, next, job.active);
    CandidatesDistinct(ledger, job.active);
    RecoverMove(job, ledger, next, k);
    ActiveSame(job, ledger, next);
    GateKept(job, ledger, next);
    OrderSame(job, ledger, next, trace);
  }

  lemma OrderSame(job: Job, ledger: Ledger, next: Ledger, trace: Trace)
    requires CallOrder(job, ledger, trace)
    requires Candidates(next, job.active) == Candidates(ledger, job.active)
    ensures CallOrder(job, next, trace)
  {
    assert forall kind :: Turns(job, next, kind) == Turns(job, ledger, kind);
  }

  lemma ActiveSame(job: Job, ledger: Ledger, next: Ledger)
    requires RejectedShape(job, ledger) && ActiveShape(job, ledger)
    requires forall p :: Recorded(next, PublishActiveObject, p) == Recorded(ledger, PublishActiveObject, p)
    requires forall p :: Recorded(next, PublishRejectedObject, p) == Recorded(ledger, PublishRejectedObject, p)
    ensures RejectedShape(job, next) && ActiveShape(job, next)
  {
  }

  lemma RecoverMove(job: Job, ledger: Ledger, next: Ledger, k: nat)
    requires RecoverShape(job, ledger) && Turn(job, ledger, RecoverActiveObject, k)
    requires Candidates(next, job.active) == Candidates(ledger, job.active) && Distinct(Candidates(ledger, job.active))
    requires var p := Candidates(ledger, job.active)[k];
             && !Cleared(ledger, RecoverActiveObject, p)
             && forall q :: q != p ==> Recorded(next, RecoverActiveObject, q) == Recorded(ledger, RecoverActiveObject, q)
    ensures RecoverShape(job, next)
  {
    var undo := Candidates(ledger, job.active);
    forall i, j | 0 <= i < j < |undo| && Recorded(next, RecoverActiveObject, undo[j]).Some?
      ensures Recorded(next, RecoverActiveObject, undo[i]) == Some(Completed)
    {
      assert Cleared(ledger, RecoverActiveObject, undo[i]) || j != k;
      assert undo[i] != undo[j];
    }
  }

  // ---------------------------------------------------------------- the same, folded

  /** A mechanism whose turn it is comes before the synchronization of the
      recovered namespace. */
  lemma TurnBeforeRecovered(job: Job, seed: Seed, ledger: Ledger, trace: Trace, kind: EffectKind, k: nat)
    requires Sound(job, seed, ledger, trace) && Turn(job, ledger, kind, k)
    requires kind.PublishActiveObject? || kind.RecoverActiveObject?
    requires !SlotAt(ledger, kind, Turns(job, ledger, kind)[k]).Done?
    ensures At(ledger, RecoveredSync()).Idle?
  {
    SoundMeans(job, seed, ledger, trace);
    assert kind.RecoverActiveObject? ==> Turns(job, ledger, kind)[k] in Candidates(ledger, job.active);
  }

  /** A step of any mechanism whose turn it is. */
  lemma KeepMechanism(job: Job, seed: Seed, ledger: Ledger, trace: Trace, entry: Entry, kind: EffectKind, k: nat)
    requires Sound(job, seed, ledger, trace) && Turn(job, ledger, kind, k)
    requires Concerns(job, entry, kind, Turns(job, ledger, kind)[k])
    requires Proceeds(ledger, trace, entry.move.value, kind, Turns(job, ledger, kind)[k])
    requires kind.PublishRejectedObject? ==> RecoverIdle(ledger)
    requires kind.RecoverActiveObject? ==> entry.state.Recovering?
    requires EntryFits(job, ledger, entry)
    ensures Sound(job, seed, Enter(ledger, entry), trace)
  {
    SoundMeans(job, seed, ledger, trace);
    SoundMeans(job, seed, Enter(ledger, entry), trace);
    KeepLedger(job, ledger, entry);
    assert OnlyDeclared(job, Enter(ledger, entry));
    KeepRight(job, seed, ledger, entry);
    if kind.PublishRejectedObject? {
      KeepRejected(job, seed, ledger, trace, entry, k);
    } else if kind.PublishActiveObject? {
      KeepActive(job, seed, ledger, trace, entry, k);
    } else {
      KeepRecover(job, seed, ledger, trace, entry, k);
    }
  }

  /** The first call of a mechanism on a path is its only one. */
  lemma OnlyCall(trace: Trace, call: Call)
    requires call.path !in CallPaths(trace, call.kind)
    ensures call.path in CallPaths(trace + [call], call.kind)
    ensures forall i :: 0 <= i < |trace + [call]| && (trace + [call])[i].kind == call.kind && (trace + [call])[i].path == call.path
                        ==> (trace + [call])[i] == call
  {
    CalledIn(trace, call.kind, call.path);
    CallPathsAppend(trace, call, call.kind);
  }

  lemma KeepMechanismCall(job: Job, seed: Seed, ledger: Ledger, trace: Trace, call: Call, k: nat)
    requires Sound(job, seed, ledger, trace)
    requires Turn(job, ledger, call.kind, k) && call.path == Turns(job, ledger, call.kind)[k]
    requires SlotAt(ledger, call.kind, call.path).Intended? && call.path !in CallPaths(trace, call.kind)
    ensures Sound(job, seed, ledger, trace + [call])
  {
    SoundMeans(job, seed, ledger, trace);
    KeepCall(job, seed, ledger, trace, call, k);
    SoundMeans(job, seed, ledger, trace + [call]);
  }

  lemma SoundUncalled(job: Job, seed: Seed, ledger: Ledger, trace: Trace, kind: EffectKind, p: Path)
    requires Sound(job, seed, ledger, trace) && Mechanism(kind) && SlotAt(ledger, kind, p).Idle?
    ensures p !in CallPaths(trace, kind)
  {
    SoundMeans(job, seed, ledger, trace);
    IdleUncalled(ledger, trace, kind, p);
  }

  lemma SoundFacts(job: Job, seed: Seed, ledger: Ledger, trace: Trace, kind: EffectKind, p: Path)
    requires Sound(job, seed, ledger, trace) && Mechanism(kind)
    ensures SlotAt(ledger, kind, p).Done? ==> SlotAt(ledger, kind, p).fact.Some?
  {
    SoundMeans(job, seed, ledger, trace);
  }
}
