/** The completion of a restarted run, and whole restarted runs. */
module ResumeCompletion {
  import opened Wrappers
  import opened Paths
  import opened Plans
  import opened Journal
  import opened Record
  import opened History
  import opened Ledgers
  import opened Jobs
  import opened Protocol
  import opened Receipts
  import opened Backend
  import opened Applications
  import opened RestartView
  import opened Phases
  import opened Preparation
  import opened Publication
  import opened Execution
  import opened Recovery
  import opened Completion
  import opened ResumePreparation
  import opened ResumePublication
  import opened ResumeExecution

  // ---------------------------------------------------------------- observing again

  /** Publishes one observation: its intent unless it is durable, then what was
      found. */
  method RecordObservation(app: Application, key: Key, verdict: Match) returns (r: Flow<()>)
    requires app.Open() && RecoverIdle(app.ledger) && PastActive(app.ledger.state) && key.kind.ObserveResult?
    requires JobDeclares(app.job, key) && !At(app.ledger, key).Done? && Due(app.job, app.ledger, key)
    modifies app, app.store, app.history
    ensures r.Crashed? ==> app.MayCrash()
    ensures app.Safe()
    ensures r.Live? ==> app.Open() && RecoverIdle(app.ledger)
                        && app.ledger == Placed(old(app.ledger), EffectsVisible, key, Done(MatchTerminal(verdict), None))
    ensures !r.Thrown?
  {
    hide Inv, StoredParts, Application.AwareOf, Attests, RejectedBehind, ActiveBehind;
    ghost var before := app.ledger;
    NeutralIdle(app.ledger, EffectsVisible, key, Intended);
    NeutralDue(app.job, app.ledger, EffectsVisible, key, Intended, key);
    var intended :- EnsureIntent(app, EffectsVisible, key);
    NeutralIdle(app.ledger, EffectsVisible, key, Done(MatchTerminal(verdict), None));
    r := PublishTerminal(app, EffectsVisible, key, MatchTerminal(verdict), None);
    PlacedTwice(before, EffectsVisible, key, Done(MatchTerminal(verdict), None));
  }

  /** Publishes one observation unless it is terminal already; an observation
      that contradicts the recorded one counts as uncertain and mismatched. */
  method ReobserveNext(app: Application, key: Key, verdict: Match) returns (r: Flow<bool>)
    requires app.Open() && RecoverIdle(app.ledger) && PastActive(app.ledger.state) && key.kind.ObserveResult? && JobDeclares(app.job, key)
    modifies app, app.store, app.history
    ensures r.Crashed? ==> app.MayCrash()
    ensures app.Safe()
    ensures r.Live? ==>
              && app.Open() && RecoverIdle(app.ledger)
              && (r.value ==> At(app.ledger, key).Done? && At(app.ledger, key).kind == MatchTerminal(verdict))
              && (forall other: Key :: other != key ==> At(app.ledger, other) == At(old(app.ledger), other))
              && PastActive(app.ledger.state)
    ensures !r.Thrown?
  {
    hide Inv, StoredParts, Application.AwareOf, Attests, JobDeclares;
    app.IsSafe();
    var progress := app.ProgressFor(key);
    if progress.terminal.Some? {
      return Live(progress.terminal == Some(MatchTerminal(verdict)));
    }
    Behind(app);
    var recorded :- RecordObservation(app, key, verdict);
    app.IsSafe();
    return Live(true);
  }

  function Judged(job: Job, m: MutatedAttempt, i: nat, sighting: Sighting, o: Comparison, verdict: Match, agrees: bool): Comparison
    requires i < |job.plan| && |m.published.rejected| <= |job.rejected|
  {
    Comparison(o.paths + (if verdict.Matched? then [CompletedConsequence(job, m, i, sighting)] else []),
               o.mismatch || verdict.Mismatch? || !agrees,
               o.unsure || verdict.Unsure? || !agrees)
  }

  lemma JudgedNext(
    job: Job, seed: Seed, before: Ledger, after: Ledger, m: MutatedAttempt, sightings: seq<Sighting>, i: nat, o: Comparison,
    agrees: bool)
    requires Compared(job, seed, before, m, sightings, i, o) && i < |job.plan| && Distinct(PlanPaths(job.plan))
    requires var key := ObserveKey(job.plan[i].path);
             && (agrees ==> At(after, key).Done? && At(after, key).kind == MatchTerminal(Verdict(job, seed, m, i, sightings[i])))
             && forall other: Key :: other != key ==> At(after, other) == At(before, other)
    ensures Compared(job, seed, after, m, sightings, i + 1,
                     Judged(job, m, i, sightings[i], o, Verdict(job, seed, m, i, sightings[i]), agrees))
  {
    PlanPathsApart(job.plan, i);
  }

  /** Compares every observed result with the plan and with what the journal
      recorded before. */
  method Reobserve(app: Application, m: MutatedAttempt, sightings: seq<Sighting>) returns (r: Flow<Comparison>)
    requires app.Open() && RecoverIdle(app.ledger) && Mutated(app.job, app.ledger, m)
    requires PastActive(app.ledger.state)
    requires |sightings| == |app.job.plan|
    modifies app, app.store, app.history
    ensures r.Crashed? ==> app.MayCrash()
    ensures app.Safe()
    ensures r.Live? ==>
              && app.Open() && RecoverIdle(app.ledger) && OnlyChanged(old(app.ledger), app.ledger, {ObserveResult})
              && PastActive(app.ledger.state)
              && Compared(app.job, app.seed, app.ledger, m, sightings, |app.job.plan|, r.value)
    ensures !r.Thrown?
  {
    hide Inv, StoredParts, Application.AwareOf, Attests;
    JobFacts(app);
    app.IsSafe();
    ghost var first := app.ledger;
    var o := Comparison([], false, false);
    for i := 0 to |app.job.plan|
      invariant app.Open() && app.Safe() && RecoverIdle(app.ledger) && OnlyChanged(first, app.ledger, {ObserveResult})
      invariant PastActive(app.ledger.state)
      invariant Compared(app.job, app.seed, app.ledger, m, sightings, i, o)
    {
      PlanPathsApart(app.job.plan, i);
      var verdict := Verdict(app.job, app.seed, m, i, sightings[i]);
      ghost var before := app.ledger;
      var agrees :- ReobserveNext(app, ObserveKey(app.job.plan[i].path), verdict);
      JudgedNext(app.job, app.seed, before, app.ledger, m, sightings, i, o, agrees);
      o := Judged(app.job, m, i, sightings[i], o, verdict, agrees);
    }
    return Live(o);
  }

  /** Interrupts a restarted run at an observation. */
  method InterruptReobserved(app: Application, m: MutatedAttempt, o: Comparison) returns (r: Flow<InterruptedAttempt>)
    requires app.Open() && Remutated(app.job, app.ledger, m)
    modifies app, app.store, app.history
    ensures r.Crashed? ==> app.MayCrash()
    ensures app.Safe()
    ensures r.Live? ==> app.Open() && Interruptible(app.job, app.ledger, r.value) && OnlyChanged(old(app.ledger), app.ledger, {})
    ensures !r.Thrown?
  {
    hide Inv, StoredParts, Application.AwareOf, Attests;
    var it := InterruptedAttempt(m.published, m.effects, if o.unsure then ObservationIndeterminate else ObservationMismatch, m.durability);
    assert Constructible(app.job, it);
    r := Interrupt(app, it);
  }

  // ---------------------------------------------------------------- evidence again

  /** A completed application of this job: what a first run and its restarts
      make of their durability once the active phase is complete. */
  predicate FullDurability(job: Job, m: MutatedAttempt) {
    m.durability == PreparedDurability(job).(rejected := RejectedStatus(job), active := ActiveStatus(job, m.effects))
  }

  /** The view holds the evidence on record, and no other. */
  ghost predicate EvidenceKnown(view: View, ledger: Ledger) {
    FactAt(view, EvidenceKey()) == if At(ledger, EvidenceKey()).Done? then At(ledger, EvidenceKey()).fact else None
  }

  /** The evidence to seal, and whether a retained record has to be published
      again under the present projection. */
  function EvidenceAgain(job: Job, seed: Seed, view: View, paths: seq<Consequence>, d: Durability, projection: nat)
    : (r: Option<(CompletedEvidence, bool)>)
    ensures r.Some? ==> r.value.0.paths == paths
  {
    var evidence := CompletedEvidenceOf(job, seed, projection, paths, d.(completed := Confirmed));
    var fact := FactAt(view, EvidenceKey());
    if evidence.None? then None
    else if fact.None? || !fact.value.EvidenceFact? then Some((evidence.value, false))
    else
      var retained := fact.value.published;
      if CompletedEvidenceOf(job, seed, retained.projection, paths, retained.durability) != Some(retained) then None
      else if retained.projection == projection then Some((retained, false))
      else Some((evidence.value, true))
  }

  /** An earlier run failed to publish the evidence and died before it sealed
      the failure.  Such an attempt can only fail or be undone. */
  predicate FailedPublication(ledger: Ledger) {
    var slot := At(ledger, EvidenceKey());
    slot.Done? && !CompletedSlot(slot)
  }

  /** The evidence on record was not published, or it is another one that is
      not to be published again. */
  predicate PublicationRefused(ledger: Ledger, evidence: CompletedEvidence, refresh: bool) {
    var slot := At(ledger, EvidenceKey());
    FailedPublication(ledger) || (slot.Done? && !refresh && slot.fact != Some(EvidenceFact(evidence)))
  }

  lemma EvidenceOnRecord(app: Application)
    requires app.Open()
    ensures var slot := At(app.ledger, EvidenceKey());
            && (CompletedSlot(slot) ==> slot.fact.Some? && slot.fact.value.EvidenceFact?)
            && (FailedPublication(app.ledger) ==> slot.fact.None?)
  {
    SoundMeans(app.job, app.seed, app.ledger, app.backend.trace);
    var slot := At(app.ledger, EvidenceKey());
    assert slot.Done? ==> SlotFits(app.job, EvidenceKey(), slot.kind, slot.fact);
  }

  /** Publishes the evidence unless it is published under the present
      projection.  It is refused exactly when the evidence on record was not
      published or differs from the one that is to be kept. */
  method RepublishEvidence(app: Application, view: View, evidence: CompletedEvidence, refresh: bool) returns (r: Flow<Outcome>)
    requires app.Open() && app.ledger.state.ResultObserved? && RecoverIdle(app.ledger)
    requires EvidenceKnown(view, app.ledger)
    requires EvidenceRight(app.job, app.seed, app.ledger, evidence)
    modifies app, app.store, app.history
    ensures r.Crashed? ==> app.MayCrash()
    ensures app.Safe()
    ensures r.Live? ==> app.Open() && app.ledger.state.ResultObserved? && RecoverIdle(app.ledger)
                        && OnlyChanged(old(app.ledger), app.ledger, {PublishCompletedEvidence})
                        && (r.value.Completed? ==> CompletedSlot(At(app.ledger, EvidenceKey())))
    ensures r.Live? && app.backend.confirms ==> r.value.Completed?
    ensures r.Thrown? ==> (r.fault == BackendFault && !app.backend.Honest())
                          || (r.fault == PhaseRefused && old(PublicationRefused(app.ledger, evidence, refresh)))
    ensures old(PublicationRefused(app.ledger, evidence, refresh)) ==> r == Thrown(PhaseRefused)
  {
    hide Inv, StoredParts, Application.AwareOf, Attests;
    app.IsSafe();
    EvidenceOnRecord(app);
    var progress := app.ProgressFor(EvidenceKey());
    if progress.terminal.None? {
      ghost var before := app.ledger;
      r := RunPublication(app, evidence);
      if r.Live? {
        NeutralIdle(before, ResultObserved, EvidenceKey(), At(app.ledger, EvidenceKey()));
      }
      return;
    }
    var fact := FactAt(view, EvidenceKey());
    if progress.terminal != Some(EventCompleted) || fact.None? || (!refresh && fact != Some(EvidenceFact(evidence))) {
      return Thrown(PhaseRefused);
    }
    if !refresh {
      return Live(Completed);
    }
    var publication :- app.backend.PublishCompletedEvidence(evidence);
    if publication.outcome.Completed? && !publication.matches {
      return Thrown(BackendFault);
    }
    return Live(publication.outcome);
  }

  /** The durability that the view reports for the completed evidence is the
      one of its synchronization. */
  ghost predicate ViewEvidence(view: View, ledger: Ledger) {
    At(ledger, EvidenceSync()).Done? ==>
      At(ledger, EvidenceSync()).fact == Some(SynchronizationFact(CompletedEvidenceDomain, view.durability.completed))
  }

  lemma EvidenceStatus(app: Application, view: View)
    requires app.Open() && At(app.ledger, EvidenceSync()).Done? && ViewEvidence(view, app.ledger)
    ensures At(app.ledger, EvidenceSync()).kind == StatusTerminal(view.durability.completed)
  {
    SoundMeans(app.job, app.seed, app.ledger, app.backend.trace);
    var slot := At(app.ledger, EvidenceSync());
    assert SlotFits(app.job, EvidenceSync(), slot.kind, slot.fact);
  }

  /** An earlier run failed to make the evidence durable. */
  predicate FailedSynchronization(ledger: Ledger) {
    var slot := At(ledger, EvidenceSync());
    slot.Done? && !CompletedSlot(slot)
  }

  /** Makes the evidence durable unless it was made durable and not published
      again. */
  method ResynchronizeEvidence(app: Application, view: View, refresh: bool) returns (r: Flow<Status>)
    requires app.Open() && app.ledger.state.ResultObserved? && RecoverIdle(app.ledger)
    requires CompletedSlot(At(app.ledger, EvidenceKey())) && ViewEvidence(view, app.ledger)
    modifies app, app.store, app.history
    ensures r.Crashed? ==> app.MayCrash()
    ensures app.Safe()
    ensures r.Live? ==> app.Open() && app.ledger.state.ResultObserved? && RecoverIdle(app.ledger)
                        && OnlyChanged(old(app.ledger), app.ledger, {SynchronizeCompletedEvidence})
                        && (r.value.Confirmed? && !CompletedSlot(At(app.ledger, EvidenceSync())) ==>
                              refresh && old(FailedSynchronization(app.ledger)))
    ensures r.Live? && app.backend.confirms ==> (r.value.Confirmed? <==> refresh || !old(FailedSynchronization(app.ledger)))
    ensures r.Live? && r.value.Confirmed? ==> refresh || !old(FailedSynchronization(app.ledger))
    ensures old(At(app.ledger, EvidenceSync())).Done? ==> app.ledger == old(app.ledger)
    ensures r.Thrown? ==> r.fault == BackendFault && !app.backend.Honest()
  {
    hide Inv, StoredParts, Application.AwareOf, Attests;
    app.IsSafe();
    var progress := app.ProgressFor(EvidenceSync());
    if progress.terminal.None? {
      ghost var before := app.ledger;
      r := RunSynchronization(app, ResultObserved, CompletedEvidenceDomain, SynchronizeCompletedEvidence);
      if r.Live? {
        NeutralIdle(before, ResultObserved, EvidenceSync(), At(app.ledger, EvidenceSync()));
      }
      return;
    }
    if !refresh {
      EvidenceStatus(app, view);
      return Live(view.durability.completed);
    }
    var fact :- app.backend.Synchronize(CompletedEvidenceDomain);
    return if fact.domain != CompletedEvidenceDomain then Thrown(BackendFault) else Live(fact.status);
  }

  /** The evidence on record was published under another projection. */
  predicate Reprojected(ledger: Ledger, projection: nat) {
    match At(ledger, EvidenceKey())
    case Done(EventCompleted, Some(EvidenceFact(e))) => e.projection != projection
    case _ => false
  }

  /** Evidence on record is what a restart makes of the same results. */
  lemma RetainedIsRight(app: Application, m: MutatedAttempt, sightings: seq<Sighting>, paths: seq<Consequence>)
    requires app.Open() && AllMatched(app.job, app.seed, app.ledger, m, sightings, paths)
    ensures match At(app.ledger, EvidenceKey())
            case Done(EventCompleted, Some(EvidenceFact(e))) =>
              e.paths == paths && CompletedEvidenceOf(app.job, app.seed, e.projection, paths, e.durability) == Some(e)
            case _ => true
  {
    SoundMeans(app.job, app.seed, app.ledger, app.backend.trace);
    JobFacts(app);
    forall i | 0 <= i < |app.job.plan| ensures paths[i] == EvidencePath(app.job, app.seed, app.ledger, i) {
      MatchedExpected(app.job, app.seed, app.ledger, m, i, sightings[i]);
    }
  }

  lemma AdmitsMatched(app: Application, m: MutatedAttempt, sightings: seq<Sighting>, paths: seq<Consequence>)
    requires app.Open() && AllMatched(app.job, app.seed, app.ledger, m, sightings, paths)
    ensures Mutated(app.job, app.ledger, m)
    ensures Compared(app.job, app.seed, app.ledger, m, sightings, |app.job.plan|, Comparison(paths, false, false))
  {
  }

  /** A restart can make its evidence unless the plan keeps an absent object,
      and keeps the evidence on record unless it was made for another
      projection. */
  lemma EvidenceAgainFits(app: Application, view: View, m: MutatedAttempt, sightings: seq<Sighting>, paths: seq<Consequence>, projection: nat)
    requires app.Open() && AllMatched(app.job, app.seed, app.ledger, m, sightings, paths)
    requires EvidenceKnown(view, app.ledger) && RetainedFits(app.job, m.effects) && FullDurability(app.job, m)
    ensures var again := EvidenceAgain(app.job, app.seed, view, paths, m.durability, projection);
            && (again.None? <==> EvidenceGap(app.job, m))
            && (again.Some? ==>
                  && again.value.0.paths == paths
                  && CompletedEvidenceOf(app.job, app.seed, again.value.0.projection, paths, again.value.0.durability) == Some(again.value.0)
                  && (again.value.1 <==> Reprojected(app.ledger, projection))
                  && (PublicationRefused(app.ledger, again.value.0, again.value.1) <==> FailedPublication(app.ledger)))
  {
    hide Inv, StoredParts, Application.AwareOf, Attests, Compared, Mutated, CompletedDurabilityOk, EvidenceGap;
    JobFacts(app);
    FreshDurabilityOk(app.job, m.effects);
    assert CompletedDurabilityOk(app.job.control, m.durability.(completed := Confirmed));
    AdmitsMatched(app, m, sightings, paths);
    EvidenceAccepted(app.job, app.seed, app.ledger, m, sightings, Comparison(paths, false, false), projection);
    EvidenceOnRecord(app);
    RetainedIsRight(app, m, sightings, paths);
  }

  /** What is left before the seal of a restarted run. */
  lemma ResumedDone(app: Application)
    requires app.Open() && app.ledger.state.ResultObserved? && Finished(app.job, app.ledger, {ObserveResult})
    requires CompletedSlot(At(app.ledger, EvidenceKey()))
    ensures JobDoneButSeal(app.job, app.ledger) <==>
              CompletedSlot(At(app.ledger, EvidenceSync())) && !ActiveUnsynchronized(app.job, app.ledger)
  {
    SoundMeans(app.job, app.seed, app.ledger, app.backend.trace);
    Behind(app);
    forall key | JobDeclares(app.job, key) && SuccessRequired(key.kind) && key !in {SealKey(), EvidenceSync(), ActiveSync()}
      ensures CompletedSlot(At(app.ledger, key))
    {
      MechanismDone(app, key);
    }
    assert JobDeclares(app.job, EvidenceSync());
  }

  /** Past the active phase a synchronization is missing only where every effect
      retained its directory. */
  lemma UnsynchronizedRetained(app: Application, m: MutatedAttempt)
    requires app.Open() && app.ledger.state.ResultObserved? && Mutated(app.job, app.ledger, m) && RetainedFits(app.job, m.effects)
    ensures ActiveUnsynchronized(app.job, app.ledger) ==> AllRetained(app.job, app.ledger)
  {
    Behind(app);
    ChangedRecorded(app.job, app.ledger, m.effects);
    if ActiveUnsynchronized(app.job, app.ledger) {
      UnchangedRetained(app.job, app.ledger, m);
    }
  }

  /** Passed effects have completed events. */
  lemma MechanismDone(app: Application, key: Key)
    requires app.Open() && app.ledger.state.ResultObserved? && Finished(app.job, app.ledger, {ObserveResult})
    requires CompletedSlot(At(app.ledger, EvidenceKey())) && JobDeclares(app.job, key)
    requires SuccessRequired(key.kind) && key !in {SealKey(), EvidenceSync(), ActiveSync()}
    ensures CompletedSlot(At(app.ledger, key))
  {
    hide ActiveGate, EvidenceGate, RecoveredGate, Core, EvidenceOk;
    SoundMeans(app.job, app.seed, app.ledger, app.backend.trace);
    Behind(app);
    var slot := At(app.ledger, key);
    assert key.kind.PublishActiveObject? ==> Passed(app.ledger, key.path.value);
    assert key.kind.PublishRejectedObject? ==> Recorded(app.ledger, PublishRejectedObject, key.path.value) == Some(Completed);
    assert slot.Done? ==> SlotFits(app.job, key, slot.kind, slot.fact);
  }

  /** Sealing the completion is refused: the synchronization of the evidence
      failed in an earlier run and the evidence is published again, or the
      declared active synchronization never ran. */
  predicate SealRefused(job: Job, ledger: Ledger, refresh: bool) {
    if FailedSynchronization(ledger) then refresh else ActiveUnsynchronized(job, ledger)
  }

  /** No synchronization that success requires has failed or was left out. */
  predicate Sealable(job: Job, ledger: Ledger) {
    !FailedSynchronization(ledger) && !ActiveUnsynchronized(job, ledger)
  }

  /** How the seal of a restarted run ends, if it is reached: completed only
      where nothing is missing, and refused exactly there if the backend makes
      everything durable. */
  ghost predicate SealEnds(r: Flow<Receipt>, app: Application, before: Ledger, refresh: bool)
    reads app
  {
    && (r.Live? && r.value.outcome.AttemptCompleted? ==> Sealable(app.job, before))
    && (r.Thrown? && r.fault == StepRefused ==>
          && SealRefused(app.job, before, refresh)
          && (!FailedSynchronization(before) ==> PlanCorner(StepRefused, app.job, app.ledger)))
    && (app.backend.Confirms() && !r.Crashed? ==>
          && (r == Thrown(StepRefused) <==> SealRefused(app.job, before, refresh))
          && (r.Live? && r.value.outcome.AttemptCompleted? <==> Sealable(app.job, before)))
  }

  /** Publishes, synchronizes and seals the evidence of a restarted run. */
  method FinishEvidence(app: Application, m: MutatedAttempt, ghost sightings: seq<Sighting>, view: View,
                        evidence: CompletedEvidence, refresh: bool) returns (r: Flow<Receipt>)
    requires app.Open() && app.ledger.state.ResultObserved? && RecoverIdle(app.ledger)
    requires AllMatched(app.job, app.seed, app.ledger, m, sightings, evidence.paths) && RetainedFits(app.job, m.effects)
    requires Finished(app.job, app.ledger, {ObserveResult}) && ViewEvidence(view, app.ledger)
    requires Sighted(PlanPaths(app.job.plan), sightings, |app.backend.trace|, app.backend.seen)
    requires CompletedEvidenceOf(app.job, app.seed, evidence.projection, evidence.paths, evidence.durability) == Some(evidence)
    requires EvidenceKnown(view, app.ledger)
    modifies app, app.store, app.history
    ensures r.Crashed? ==> app.MayCrash()
    ensures app.Safe()
    ensures r.Live? ==> app.ledger.receipt == Some(r.value)
    ensures r.Thrown? ==> (r.fault == BackendFault && !app.backend.Honest())
                          || (r.fault == PhaseRefused && old(PublicationRefused(app.ledger, evidence, refresh)))
                          || r.fault == StepRefused
    ensures old(PublicationRefused(app.ledger, evidence, refresh)) || SealEnds(r, app, old(app.ledger), refresh)
    ensures old(PublicationRefused(app.ledger, evidence, refresh)) ==> r == Thrown(PhaseRefused)
  {
    hide Inv, StoredParts, Application.AwareOf, Attests;
    ghost var a := app.ledger;
    MatchedRight(app, m, sightings, evidence);
    var outcome :- RepublishEvidence(app, view, evidence, refresh);
    AllMatchedSame(app.job, app.seed, a, app.ledger, m, sightings, evidence.paths, {PublishCompletedEvidence});
    if !outcome.Completed? {
      Behind(app);
      r := FailCompletion(app, m, sightings, evidence.paths, outcome.Indeterminate?);
      return;
    }
    r := FinishSynchronized(app, m, sightings, view, evidence, refresh);
  }

  method FinishSynchronized(app: Application, m: MutatedAttempt, ghost sightings: seq<Sighting>, view: View,
                            evidence: CompletedEvidence, refresh: bool) returns (r: Flow<Receipt>)
    requires app.Open() && app.ledger.state.ResultObserved? && RecoverIdle(app.ledger)
    requires AllMatched(app.job, app.seed, app.ledger, m, sightings, evidence.paths) && RetainedFits(app.job, m.effects)
    requires Finished(app.job, app.ledger, {ObserveResult}) && ViewEvidence(view, app.ledger)
    requires Sighted(PlanPaths(app.job.plan), sightings, |app.backend.trace|, app.backend.seen)
    requires CompletedSlot(At(app.ledger, EvidenceKey()))
    modifies app, app.store, app.history
    ensures r.Crashed? ==> app.MayCrash()
    ensures app.Safe()
    ensures r.Live? ==> app.ledger.receipt == Some(r.value)
    ensures r.Thrown? ==> (r.fault == BackendFault && !app.backend.Honest()) || r.fault == StepRefused
    ensures SealEnds(r, app, old(app.ledger), refresh)
  {
    hide Inv, StoredParts, Application.AwareOf, Attests, AllMatched, Finished, CompletedEvidenceOf, JobDeclares,
      JobDoneButSeal;
    ghost var b := app.ledger;
    var status :- ResynchronizeEvidence(app, view, refresh);
    AllMatchedSame(app.job, app.seed, b, app.ledger, m, sightings, evidence.paths, {SynchronizeCompletedEvidence});
    UnchangedKinds(app.job, b, app.ledger, {SynchronizeCompletedEvidence}, {ObserveResult});
    Behind(app);
    if status != Confirmed {
      r := FailCompletion(app, m, sightings, evidence.paths, status.StatusIndeterminate?);
      return;
    }
    ResumedDone(app);
    ghost var c := app.ledger;
    UnsynchronizedRetained(app, m);
    r := SealCompletion(app, m, sightings, evidence);
    if r == Thrown(StepRefused) && ActiveUnsynchronized(app.job, c) {
      RetainedKept(app.job, c, app.ledger, {SealReceipt});
    }
  }

  /** Publishes that the results were observed, unless an earlier run did. */
  method ReachObserved(app: Application, m: MutatedAttempt, ghost sightings: seq<Sighting>, o: Comparison) returns (r: Flow<()>)
    requires app.Open() && Remutated(app.job, app.ledger, m)
    requires Compared(app.job, app.seed, app.ledger, m, sightings, |app.job.plan|, o) && !o.mismatch && !o.unsure
    modifies app, app.store, app.history
    ensures r.Crashed? ==> app.MayCrash()
    ensures app.Safe()
    ensures r.Live? ==>
              && app.Open() && app.ledger.state.ResultObserved? && RecoverIdle(app.ledger)
              && AllMatched(app.job, app.seed, app.ledger, m, sightings, o.paths)
              && Finished(app.job, app.ledger, {ObserveResult}) && OnlyChanged(old(app.ledger), app.ledger, {})
    ensures !r.Thrown?
  {
    hide Inv, StoredParts, Application.AwareOf, Attests;
    ghost var before := app.ledger;
    var state := app.State();
    if !state.ResultObserved? {
      var observed :- PublishState(app, ResultObserved);
    }
    app.IsSafe();
    MutatedSame(app.job, before, app.ledger, m, {});
    UnchangedKinds(app.job, before, app.ledger, {}, {});
    ObservedFinished(app.job, app.seed, app.ledger, m, sightings, o);
    return Live(());
  }

  /** How the completion of a restarted run ends once its results matched. */
  ghost predicate CompletionEnds(r: Flow<Receipt>, app: Application, m: MutatedAttempt, before: Ledger, projection: nat)
    reads app
  {
    && (r.Live? ==> app.ledger.receipt == Some(r.value))
    && (r.Thrown? ==>
          || (r.fault == BackendFault && !app.backend.Honest())
          || (r.fault == EvidenceRefused && EvidenceGap(app.job, m) && PlanCorner(EvidenceRefused, app.job, app.ledger))
          || (r.fault == PhaseRefused && FailedPublication(before))
          || (r.fault == StepRefused && !FailedPublication(before)))
    && (EvidenceGap(app.job, m) ==> r.Crashed? || r == Thrown(EvidenceRefused))
    && (!EvidenceGap(app.job, m) && FailedPublication(before) ==> r.Crashed? || r == Thrown(PhaseRefused))
    && (!EvidenceGap(app.job, m) && !FailedPublication(before) ==>
          SealEnds(r, app, before, Reprojected(before, projection)))
  }

  /** From matched observations to the receipt. */
  method ConcludeResumed(app: Application, m: MutatedAttempt, ghost sightings: seq<Sighting>, o: Comparison, view: View, projection: nat)
    returns (r: Flow<Receipt>)
    requires app.Open() && Remutated(app.job, app.ledger, m) && FullDurability(app.job, m)
    requires Compared(app.job, app.seed, app.ledger, m, sightings, |app.job.plan|, o) && !o.mismatch && !o.unsure
    requires EvidenceKnown(view, app.ledger) && ViewEvidence(view, app.ledger)
    requires Sighted(PlanPaths(app.job.plan), sightings, |app.backend.trace|, app.backend.seen)
    modifies app, app.store, app.history
    ensures r.Crashed? ==> app.MayCrash()
    ensures app.Safe()
    ensures CompletionEnds(r, app, m, old(app.ledger), projection)
  {
    hide Inv, StoredParts, Application.AwareOf, Attests, AllMatched, Finished, Compared, EvidenceGap, FullDurability, Mutated;
    var observed :- ReachObserved(app, m, sightings, o);
    app.IsSafe();
    EvidenceAgainFits(app, view, m, sightings, o.paths, projection);
    var evidence := EvidenceAgain(app.job, app.seed, view, o.paths, m.durability, projection);
    AdmitsMatched(app, m, sightings, o.paths);
    GapCorner(app, m);
    if evidence.None? {
      return Thrown(EvidenceRefused);
    }
    r := FinishEvidence(app, m, sightings, view, evidence.value.0, evidence.value.1);
  }

  /** Observing again does not decide how the completion ends. */
  lemma EndsSame(r: Flow<Receipt>, app: Application, m: MutatedAttempt, before: Ledger, observed: Ledger, projection: nat)
    requires OnlyChanged(before, observed, {ObserveResult}) && CompletionEnds(r, app, m, observed, projection)
    ensures CompletionEnds(r, app, m, before, projection)
  {
    hide Inv, StoredParts, Application.AwareOf, Attests, EvidenceGap;
  }

  /** The ending of a phase that does not go on. */
  function EndingOf(r: Flow<Phase<InterruptedAttempt>>): Flow<Receipt>
    requires r.Live? ==> r.value.Sealed?
  {
    match r
    case Live(phase) => Live(phase.receipt)
    case Crashed => Crashed
    case Thrown(fault) => Thrown(fault)
  }

  /** The completion of a restarted run: an attempt whose results do not match
      goes on to recovery, any other one ends. */
  method ResumeComplete(app: Application, m: MutatedAttempt, view: View, projection: nat) returns (r: Flow<Phase<InterruptedAttempt>>)
    requires app.Open() && Remutated(app.job, app.ledger, m) && FullDurability(app.job, m)
    requires EvidenceKnown(view, app.ledger) && ViewEvidence(view, app.ledger)
    modifies app, app.store, app.history, app.backend`seen
    ensures r.Crashed? ==> app.MayCrash()
    ensures app.Safe()
    ensures r.Live? && r.value.Onward? ==>
              app.Open() && Interruptible(app.job, app.ledger, r.value.value)
              && OnlyChanged(old(app.ledger), app.ledger, {ObserveResult})
    ensures r.Crashed? || (r.Live? && r.value.Onward?) || CompletionEnds(EndingOf(r), app, m, old(app.ledger), projection)
  {
    hide Inv, StoredParts, Application.AwareOf, Attests, CompletionEnds, Mutated, Compared;
    app.IsSafe();
    ghost var before := app.ledger;
    var seen :- ObservePaths(app, PlanPaths(app.job.plan));
    var o :- Reobserve(app, m, seen);
    MutatedSame(app.job, before, app.ledger, m, {ObserveResult});
    if o.mismatch || o.unsure {
      var it :- InterruptReobserved(app, m, o);
      app.IsSafe();
      return Live(Onward(it));
    }
    ghost var observed := app.ledger;
    var concluded := ConcludeResumed(app, m, seen, o, view, projection);
    EndsSame(concluded, app, m, before, observed, projection);
    var receipt :- concluded;
    return Live(Sealed(receipt));
  }
}
