/** Reopening an attempt after a crash: load the history, decide whether it is
    resumable, and read the restart view. */
module Restart {
  import opened Wrappers
  import opened Paths
  import opened Journal
  import opened Record
  import opened History
  import opened Ledgers
  import opened Store
  import opened Jobs
  import opened Protocol
  import opened Backend
  import opened Applications
  import opened RestartView

  datatype Disposition = ResumeForward | ResumeRecovery | ExternalResolution | Terminal

  /** Progress of a validated record, event by event. */
  method ProgressOfRecord(record: JournalRecord) returns (progress: seq<Progress>)
    requires RecordOk(record)
    ensures Some(progress) == BatchProgress(record.effects, record.events)
  {
    progress := IdleProgress(|record.effects|);
    for k := 0 to |record.events|
      invariant BatchProgress(record.effects, record.events[..k]) == Some(progress)
    {
      if BatchProgress(record.effects, record.events[..k + 1]).None? {
        RefusedPrefix(record.effects, record.events, k + 1);
      }
      assert record.events[..k + 1][..k] == record.events[..k];
      var event := record.events[k];
      var item := progress[event.effect.ordinal];
      progress := progress[event.effect.ordinal :=
        if event.kind.Intent? then item.(intended := true) else item.(terminal := Some(event.kind))];
    }
    assert record.events[..|record.events|] == record.events;
  }

  /** An active effect that was begun and neither completed nor retained its
      object. */
  predicate NeedsRecovery(effect: Effect, progress: Progress) {
    && effect.kind.PublishActiveObject?
    && if progress.terminal.None? then progress.intended
       else progress.terminal.value.EventFailed? || progress.terminal.value.EventIndeterminate?
  }

  /** Some active effect of the record was begun and did not go through. */
  predicate Unfinished(record: JournalRecord)
    requires RecordOk(record)
  {
    var progress := BatchProgress(record.effects, record.events).value;
    exists i :: 0 <= i < |record.effects| && NeedsRecovery(record.effects[i], progress[i])
  }

  method ActiveRequiresRecovery(record: JournalRecord) returns (needed: bool)
    requires RecordOk(record)
    ensures needed <==> Unfinished(record)
  {
    var progress := ProgressOfRecord(record);
    for i := 0 to |record.effects|
      invariant forall j :: 0 <= j < i ==> !NeedsRecovery(record.effects[j], progress[j])
    {
      if NeedsRecovery(record.effects[i], progress[i]) {
        return true;
      }
    }
    return false;
  }

  /** A mutating attempt goes on forward unless an active effect failed or may
      have. */
  method DispositionOf(record: JournalRecord) returns (d: Disposition)
    requires RecordOk(record)
    ensures d.ResumeForward? <==>
              record.receipt.None?
              && (record.state in {Preparing, Prepared, EffectsVisible, ResultObserved} || (record.state.Mutating? && !Unfinished(record)))
    ensures d.ResumeRecovery? <==>
              record.receipt.None?
              && (record.state in {RecoveryPending, Recovering} || (record.state.Mutating? && Unfinished(record)))
    ensures d.ExternalResolution? <==> record.state.StateIndeterminate? || record.state.ExternalResolutionPending?
  {
    if record.receipt.Some? {
      return if record.state.StateIndeterminate? || record.state.ExternalResolutionPending? then ExternalResolution else Terminal;
    }
    match record.state
    case Preparing | Prepared | EffectsVisible | ResultObserved => return ResumeForward;
    case Mutating =>
      var needed := ActiveRequiresRecovery(record);
      return if needed then ResumeRecovery else ResumeForward;
    case RecoveryPending | Recovering => return ResumeRecovery;
    case ApplicationCompleted | Recovered | Finalized | Abandoned => return Terminal;
    case ExternalResolutionPending | StateIndeterminate => return ExternalResolution;
  }

  /** The journal states from which a restart may go on. */
  predicate Resumable(state: State) {
    state in {Preparing, Prepared, Mutating, EffectsVisible, ResultObserved, RecoveryPending, Recovering}
  }

  lemma LedgerOfRecord(app: Application)
    requires app.Aware()
    ensures app.ledger.state == StateAfter(app.history.steps) && app.ledger.receipt == ReceiptAfter(app.history.steps)
    ensures app.ledger.completed == CompletedAfter(app.history.steps)
    ensures RecordOk(RecordOf(app.declaration, app.history.steps))
  {
    app.AwareMeans();
    LedgerAgrees(app.declaration, app.history.steps);
    SnapshotAccepted(app.declaration, app.history.steps);
  }

  /** Some active effect of the journal was begun and did not go through. */
  predicate SomeUnfinished(job: Job, ledger: Ledger) {
    exists p :: p in job.active && NeedsRecovery(Effect(0, PublishActiveObject, Some(p)), ProgressOf(SlotAt(ledger, PublishActiveObject, p)))
  }

  lemma UnfinishedMirrored(job: Job, effects: seq<Effect>, progress: seq<Progress>, ledger: Ledger)
    requires effects == EffectsOf(JobKeys(job)) && Mirrors(effects, progress, ledger)
    ensures (exists i :: 0 <= i < |effects| && NeedsRecovery(effects[i], progress[i])) <==> SomeUnfinished(job, ledger)
  {
    if i :| 0 <= i < |effects| && NeedsRecovery(effects[i], progress[i]) {
      JobDeclared(job, KeyOf(effects[i]));
      assert Declared(effects, KeyOf(effects[i]));
      var p := effects[i].path.value;
      assert NeedsRecovery(Effect(0, PublishActiveObject, Some(p)), ProgressOf(SlotAt(ledger, PublishActiveObject, p)));
    }
    if SomeUnfinished(job, ledger) {
      var p :| p in job.active
               && NeedsRecovery(Effect(0, PublishActiveObject, Some(p)), ProgressOf(SlotAt(ledger, PublishActiveObject, p)));
      JobDeclared(job, Key(PublishActiveObject, Some(p)));
      var i :| 0 <= i < |effects| && KeyOf(effects[i]) == Key(PublishActiveObject, Some(p));
      assert NeedsRecovery(effects[i], progress[i]);
    }
  }

  /** What the record of a loaded attempt says about that, its ledger says. */
  lemma UnfinishedInLedger(app: Application)
    requires app.Aware() && RecordOk(RecordOf(app.declaration, app.history.steps))
    ensures Unfinished(RecordOf(app.declaration, app.history.steps)) <==> SomeUnfinished(app.job, app.ledger)
  {
    hide SomeUnfinished, NeedsRecovery, JobKeys, EffectsOf, RecordOk, Replay;
    app.AwareMeans();
    LedgerAgrees(app.declaration, app.history.steps);
    ReplayAgrees(app.declaration, app.history.steps);
    UnfinishedMirrored(app.job, app.declaration.effects, Replay(app.declaration, app.history.steps).value.progress, app.ledger);
  }

  lemma ViewOfLedger(app: Application, view: View)
    requires app.Alive() && ViewOf(app.job, app.history.steps) == Some(view)
    ensures Shows(view, app.ledger) && StagedIs(view, app.ledger)
  {
    app.AwareMeans();
    ViewShows(app.job, app.declaration, app.history.steps);
  }

  /** For a safe attempt the view is refused only over staging facts that
      conflict. */
  lemma ViewRefusedOnly(app: Application)
    requires app.Alive()
    ensures ViewOf(app.job, app.history.steps).None? <==> !StagesAgree(app.ledger)
  {
    app.AwareMeans();
    SoundMeans(app.job, app.seed, app.ledger, app.backend.trace);
    ViewAccepts(app.job, app.declaration, app.history.steps);
  }

  /** Loads the durable attempt into a new process. */
  method OpenApplication(job: Job, seed: Seed, declaration: Declaration, store: JournalStore, backend: ApplicationBackend)
    returns (r: Flow<Application>)
    requires SafeAttempt(job, seed, declaration, store, backend)
    modifies store
    ensures r.Crashed? ==> store.mayCrash || backend.mayCrash
    ensures store.declaration == old(store.declaration) && store.steps == old(store.steps)
    ensures SafeAttempt(job, seed, declaration, store, backend)
    ensures r.Live? ==>
              var app := r.value;
              && fresh(app) && fresh(app.history) && app.store == store && app.backend == backend
              && app.job == job && app.seed == seed && app.declaration == declaration && !app.first
              && app.Alive() && app.origin == store.steps && app.ledger == LedgerOf(store.steps)
    ensures !r.Thrown?
  {
    StoredMeans(job, declaration, store);
    var loaded := Load(store, declaration);
    StoredMeans(job, declaration, store);
    if loaded.IsFailure() {
      return loaded.PropagateFailure();
    }
    var app := new Application(job, seed, declaration, store, loaded.value, backend, false);
    return Live(app);
  }

  /** What a restart knows when it goes on. */
  ghost predicate Assessed(app: Application, view: View, disposition: Disposition)
    reads app, app.store, app.history, app.backend
  {
    && app.Open() && !app.first && Resumable(app.ledger.state)
    && Shows(view, app.ledger) && StagedIs(view, app.ledger)
    && (disposition.ResumeForward? || disposition.ResumeRecovery?)
    && (disposition.ResumeRecovery? <==> ToRecover(app.job, app.ledger))
  }

  /** An attempt that goes on in recovery: it was there already, or an active
      effect was begun and did not go through. */
  predicate ToRecover(job: Job, ledger: Ledger) {
    ledger.state.RecoveryPending? || ledger.state.Recovering? || (ledger.state.Mutating? && SomeUnfinished(job, ledger))
  }

  /** Whether and how a loaded attempt goes on. */
  method Dispose(app: Application) returns (disposition: Disposition)
    requires app.Aware()
    ensures disposition.ResumeForward? || disposition.ResumeRecovery? <==>
              app.ledger.receipt.None? && Resumable(app.ledger.state)
    ensures disposition.ResumeRecovery? <==> app.ledger.receipt.None? && ToRecover(app.job, app.ledger)
  {
    LedgerOfRecord(app);
    UnfinishedInLedger(app);
    app.AwareMeans();
    var record := app.history.Snapshot();
    disposition := DispositionOf(record.value);
  }

  /** The view of a loaded attempt; only conflicting staging facts refuse it. */
  method ReadView(app: Application) returns (view: Option<View>)
    requires app.Alive()
    ensures view.Some? ==> Shows(view.value, app.ledger) && StagedIs(view.value, app.ledger)
    ensures view.None? <==> !StagesAgree(app.ledger)
  {
    ViewRefusedOnly(app);
    view := BuildView(app.job, app.history.steps);
    if view.Some? {
      ViewOfLedger(app, view.value);
    }
  }

  /** Assesses a loaded attempt and reads its view.  A loaded attempt is
      refused only when it is not resumable or its staging facts conflict. */
  method Assess(app: Application) returns (r: Flow<(View, Disposition)>)
    requires app.Alive() && !app.first
    ensures r.Crashed? ==> app.MayCrash()
    ensures r.Live? ==> Assessed(app, r.value.0, r.value.1)
    ensures !r.Crashed?
    ensures r.Thrown? ==> r.fault == if app.ledger.receipt.Some? || !Resumable(app.ledger.state) then NotResumable else ViewRefused
    ensures r.Thrown? <==> app.ledger.receipt.Some? || !Resumable(app.ledger.state) || !StagesAgree(app.ledger)
  {
    hide Inv, StoredParts, Application.AwareOf, Attests;
    app.CompletedNeedsReceipt();
    var disposition := Dispose(app);
    if !disposition.ResumeForward? && !disposition.ResumeRecovery? {
      return Thrown(NotResumable);
    }
    var view := ReadView(app);
    if view.None? {
      return Thrown(ViewRefused);
    }
    return Live((view.value, disposition));
  }
}
