/** What the phases of an application hand to each other, and how a phase that
    cannot go on seals its failure. */
module Phases {
  import opened Wrappers
  import opened Paths
  import opened Plans
  import opened Schedule
  import opened Journal
  import opened History
  import opened Ledgers
  import opened Jobs
  import opened Protocol
  import opened Receipts
  import opened Backend
  import opened Applications

  /** A phase either seals a failure receipt or hands on its result. */
  datatype Phase<+T> = Sealed(receipt: Receipt) | Onward(value: T)

  datatype PreparedAttempt = PreparedAttempt(captures: seq<CaptureResult>, durability: Durability)

  datatype PublishedAttempt = PublishedAttempt(prepared: PreparedAttempt, rejected: seq<RejectedResult>, durability: Durability)

  datatype MutatedAttempt = MutatedAttempt(published: PublishedAttempt, effects: seq<EffectResult>, durability: Durability)

  datatype InterruptedAttempt = InterruptedAttempt(
    published: PublishedAttempt, effects: seq<EffectResult>, interruption: Interruption, durability: Durability)

  // ---------------------------------------------------------------- reading ledgers by kind

  ghost predicate Untouched(ledger: Ledger, kinds: set<EffectKind>) {
    forall key: Key :: key.kind in kinds ==> At(ledger, key).Idle?
  }

  /** Nothing but effects of these kinds differs. */
  ghost predicate OnlyChanged(before: Ledger, after: Ledger, kinds: set<EffectKind>) {
    forall key: Key :: key.kind !in kinds ==> At(after, key) == At(before, key)
  }

  // ---------------------------------------------------------------- what success needs

  /** Some effect that success requires ended without completing. */
  ghost predicate Fallen(ledger: Ledger) {
    exists key: Key :: SuccessRequired(key.kind) && NotCompleted(At(ledger, key))
  }

  predicate NotCompleted(slot: Slot) {
    slot.Done? && !slot.kind.EventCompleted?
  }

  lemma FallenAt(ledger: Ledger, key: Key)
    requires SuccessRequired(key.kind) && NotCompleted(At(ledger, key))
    ensures Fallen(ledger)
  {
  }

  /** Steps about other effects leave it so. */
  lemma FallenKept(before: Ledger, after: Ledger, changed: set<EffectKind>)
    requires Fallen(before) && OnlyChanged(before, after, changed)
    requires forall kind :: kind in changed ==> !SuccessRequired(kind)
    ensures Fallen(after)
  {
    var key: Key :| SuccessRequired(key.kind) && NotCompleted(At(before, key));
    FallenAt(after, key);
  }

  lemma UnchangedKinds(job: Job, before: Ledger, after: Ledger, changed: set<EffectKind>, kinds: set<EffectKind>)
    requires OnlyChanged(before, after, changed) && changed !! kinds
    ensures Untouched(before, kinds) ==> Untouched(after, kinds)
    ensures Finished(job, before, kinds) ==> Finished(job, after, kinds)
    ensures RecoverActiveObject !in changed && SynchronizeRecoveredNamespace !in changed ==> (RecoverIdle(before) <==> RecoverIdle(after))
  {
    if RecoverActiveObject !in changed {
      assert forall p :: Recorded(after, RecoverActiveObject, p) == Recorded(before, RecoverActiveObject, p);
    }
  }

  lemma UntouchedRecover(ledger: Ledger, kinds: set<EffectKind>)
    requires Untouched(ledger, kinds) && RecoverActiveObject in kinds && SynchronizeRecoveredNamespace in kinds
    ensures RecoverIdle(ledger)
  {
    assert forall p :: SlotAt(ledger, RecoverActiveObject, p).Idle?;
  }

  /** The k-th capture result is what the journal says. */
  predicate CaptureRecorded(request: CaptureRequest, control: Control, result: CaptureResult, slot: Slot) {
    && result.outcome.Completed?
    && slot == Done(EventCompleted, Some(CaptureFact(request.path, Completed, result.exact)))
    && (request.forRecovery && control.recovery.ExactPriorState? ==> result.exact)
  }

  ghost predicate CapturesRecorded(job: Job, ledger: Ledger, captures: seq<CaptureResult>) {
    && |captures| <= |job.captures|
    && forall i :: 0 <= i < |captures| ==>
         CaptureRecorded(job.captures[i], job.control, captures[i], SlotAt(ledger, CaptureOldObject, job.captures[i].path))
  }

  ghost predicate AllCaptured(job: Job, ledger: Ledger, captures: seq<CaptureResult>) {
    |captures| == |job.captures| && CapturesRecorded(job, ledger, captures)
  }

  lemma CapturesSame(job: Job, before: Ledger, after: Ledger, captures: seq<CaptureResult>, changed: set<EffectKind>)
    requires CapturesRecorded(job, before, captures) && OnlyChanged(before, after, changed) && CaptureOldObject !in changed
    ensures CapturesRecorded(job, after, captures)
  {
  }

  /** The effect results are exactly what the journal says about a prefix of
      the active schedule, and nothing beyond it was begun. */
  ghost predicate EffectsRecorded(job: Job, ledger: Ledger, effects: seq<EffectResult>) {
    && |effects| <= |job.active|
    && (forall i :: 0 <= i < |effects| ==>
          && effects[i].path == job.active[i]
          && Recorded(ledger, PublishActiveObject, job.active[i]) == Some(effects[i].outcome))
    && forall i :: |effects| <= i < |job.active| ==> Recorded(ledger, PublishActiveObject, job.active[i]).None?
  }

  ghost predicate RejectedRecorded(job: Job, ledger: Ledger, rejected: seq<RejectedResult>) {
    && |rejected| <= |job.rejected|
    && forall i :: 0 <= i < |rejected| ==>
         Recorded(ledger, PublishRejectedObject, job.rejected[i]) == Some(rejected[i].outcome)
  }

  ghost predicate AllRejected(job: Job, ledger: Ledger, rejected: seq<RejectedResult>) {
    && |rejected| == |job.rejected| && RejectedRecorded(job, ledger, rejected)
    && forall r :: r in rejected ==> r.outcome.Completed?
  }

  lemma RejectedAllDone(job: Job, ledger: Ledger, rejected: seq<RejectedResult>)
    requires AllRejected(job, ledger, rejected)
    ensures forall q :: q in job.rejected ==> Recorded(ledger, PublishRejectedObject, q) == Some(Completed)
  {
    forall q | q in job.rejected ensures Recorded(ledger, PublishRejectedObject, q) == Some(Completed) {
      var i :| 0 <= i < |job.rejected| && job.rejected[i] == q;
      assert rejected[i] in rejected;
    }
  }

  lemma SameRecords(job: Job, before: Ledger, after: Ledger, effects: seq<EffectResult>, rejected: seq<RejectedResult>,
                    changed: set<EffectKind>)
    requires OnlyChanged(before, after, changed) && changed !! {PublishActiveObject, PublishRejectedObject}
    ensures EffectsRecorded(job, before, effects) ==> EffectsRecorded(job, after, effects)
    ensures AllRejected(job, before, rejected) ==> AllRejected(job, after, rejected)
  {
    assert forall p :: Recorded(after, PublishActiveObject, p) == Recorded(before, PublishActiveObject, p);
    assert forall p :: Recorded(after, PublishRejectedObject, p) == Recorded(before, PublishRejectedObject, p);
  }

  // ---------------------------------------------------------------- what soundness gives a phase

  /** No list of a job names a path twice. */
  lemma JobLists(job: Job)
    requires JobOk(job)
    ensures Distinct(CapturePaths(job.captures)) && Distinct(job.rejected) && Distinct(job.active)
    ensures Distinct(PlanPaths(job.plan)) && Distinct(job.stages) && |job.stages| == |job.selection|
  {
    CapturesDistinct(job.plan, job.control);
    RejectedDistinct(job.plan);
    AscendingDistinct(PlanPaths(job.plan));
  }

  lemma JobFacts(app: Application)
    requires app.Alive()
    ensures JobOk(app.job) && SeedOk(app.job, app.seed)
    ensures Distinct(CapturePaths(app.job.captures)) && Distinct(app.job.rejected) && Distinct(app.job.active)
    ensures Distinct(PlanPaths(app.job.plan)) && Distinct(app.job.stages) && |app.job.stages| == |app.job.selection|
  {
    SoundMeans(app.job, app.seed, app.ledger, app.backend.trace);
    JobLists(app.job);
  }

  lemma {:induction false} NoCandidates(ledger: Ledger, active: seq<Path>)
    requires forall p :: p in active ==> !Touched(ledger, p)
    ensures Candidates(ledger, active) == []
  {
    if active != [] {
      NoCandidates(ledger, active[..|active| - 1]);
    }
  }

  lemma PhaseIdle(job: Job, ledger: Ledger)
    requires OnlyDeclared(job, ledger) && PhaseOk(ledger) && BeforeMutation(ledger.state) && ledger.receipt.None?
    ensures RecoverIdle(ledger) && Untouched(ledger, {PublishActiveObject, PublishRejectedObject, RecoverActiveObject})
    ensures Candidates(ledger, job.active) == []
  {
    forall key: Key | key.kind in {PublishActiveObject, PublishRejectedObject, RecoverActiveObject}
      ensures At(ledger, key).Idle?
    {
      if key in ledger.slots {
        assert JobDeclares(job, key);
        assert SlotAt(ledger, key.kind, key.path.value).Idle?;
      }
    }
    assert forall p :: SlotAt(ledger, PublishActiveObject, p).Idle?;
    assert forall p :: SlotAt(ledger, RecoverActiveObject, p).Idle?;
    NoCandidates(ledger, job.active);
  }

  /** Before mutation no mechanism was even intended. */
  lemma NothingBegun(app: Application)
    requires app.Open() && BeforeMutation(app.ledger.state)
    ensures RecoverIdle(app.ledger) && Untouched(app.ledger, {PublishActiveObject, PublishRejectedObject, RecoverActiveObject})
    ensures Candidates(app.ledger, app.job.active) == []
  {
    SoundMeans(app.job, app.seed, app.ledger, app.backend.trace);
    PhaseIdle(app.job, app.ledger);
  }

  lemma SoundLedger(app: Application)
    requires app.Alive()
    ensures LedgerOk(app.job, app.ledger) && OnlyDeclared(app.job, app.ledger)
  {
    SoundMeans(app.job, app.seed, app.ledger, app.backend.trace);
  }

  /** What a state has behind it while there is no receipt. */
  lemma Behind(app: Application)
    requires app.Open()
    ensures PhaseGate(app.job, app.ledger) && ActiveGate(app.job, app.ledger)
  {
    SoundMeans(app.job, app.seed, app.ledger, app.backend.trace);
  }

  /** Seals a failure of the preparation: nothing was mutated. */
  method FailPreparation(app: Application, journal: Status, incoming: Status, recovery: Status)
    returns (r: Flow<Receipt>)
    requires app.Open() && app.ledger.state.Preparing?
    modifies app, app.store, app.history
    ensures r.Crashed? ==> app.MayCrash()
    ensures app.Safe()
    ensures r.Live? ==> app.ledger.receipt == Some(r.value) && app.ledger.state.Abandoned?
    ensures r.Live? ==> r.value.outcome.FailedBeforeTargetMutation? && OnlyChanged(old(app.ledger), app.ledger, {})
    ensures !r.Thrown?
  {
    NothingBegun(app);
    app.IsSafe();
    var receipt := FailedReceipt(app.job.plan, FailedBeforeTargetMutation, Unchanged,
                                 PreparationDurability(journal, incoming, recovery), [], true);
    var sealed :- SealState(app, Abandoned, receipt.value);
    return Live(receipt.value);
  }
}
