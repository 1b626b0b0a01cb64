/** The preparation phase of a first run: capture the old objects, stage the
    incoming payloads, make both durable. */
module Preparation {
  import opened Wrappers
  import opened Paths
  import opened Plans
  import opened Journal
  import opened History
  import opened Ledgers
  import opened Jobs
  import opened Protocol
  import opened Receipts
  import opened Backend
  import opened Applications
  import opened Phases

  /** Captures each old object in turn; the first that fails ends the phase. */
  method CaptureOldObjects(app: Application) returns (r: Flow<(seq<CaptureResult>, Status, bool)>)
    requires app.Open() && app.ledger.state.Preparing? && Untouched(app.ledger, {CaptureOldObject})
    modifies app, app.store, app.history, app.backend
    ensures r.Crashed? ==> app.MayCrash()
    ensures r.Thrown? && r.fault == BackendFault ==> !app.backend.Honest()
    ensures app.Safe()
    ensures r.Live? && !r.value.2 ==> Fallen(app.ledger)
    ensures r.Live? ==> app.Open() && app.ledger.state.Preparing? && OnlyChanged(old(app.ledger), app.ledger, {CaptureOldObject})
    ensures r.Live? && r.value.2 ==>
              && AllCaptured(app.job, app.ledger, r.value.0)
              && r.value.1 == if app.job.captures == [] then NotAttempted else Visible
    ensures r.Thrown? ==> r.fault == BackendFault
  {
    hide Inv, StoredParts, Application.AwareOf, Attests;
    JobFacts(app);
    app.IsSafe();
    var captures: seq<CaptureResult> := [];
    var durability := NotAttempted;
    ghost var first := app.ledger;
    for i := 0 to |app.job.captures|
      invariant app.Open() && app.ledger.state.Preparing? && app.Safe()
      invariant OnlyChanged(first, app.ledger, {CaptureOldObject})
      invariant |captures| == i && CapturesRecorded(app.job, app.ledger, captures)
      invariant forall j :: i <= j < |app.job.captures| ==> SlotAt(app.ledger, CaptureOldObject, app.job.captures[j].path).Idle?
      invariant durability == if i == 0 then NotAttempted else Visible
    {
      var request := app.job.captures[i];
      assert CapturePaths(app.job.captures)[i] == request.path;
      ghost var before := app.ledger;
      var result :- RunCapture(app, request, true);
      CaptureMoves(app.job, before, app.ledger, captures, i, Key(CaptureOldObject, Some(request.path)));
      if result.outcome.Completed? {
        durability := Visible;
      }
      captures := captures + [result];
      if !CaptureTerminal(request, app.job.control, result.outcome, result.exact).EventCompleted? {
        if !result.outcome.Completed? {
          durability := StatusIndeterminate;
        }
        FallenAt(app.ledger, Key(CaptureOldObject, Some(request.path)));
        app.IsSafe();
        return Live((captures, durability, false));
      }
      app.IsSafe();
    }
    return Live((captures, durability, true));
  }

  /** One more capture leaves the recorded ones alone. */
  lemma CaptureMoves(job: Job, before: Ledger, after: Ledger, captures: seq<CaptureResult>, i: nat, key: Key)
    requires i < |job.captures| && |captures| == i && Distinct(CapturePaths(job.captures))
    requires key == Key(CaptureOldObject, Some(job.captures[i].path))
    requires forall other: Key :: other != key ==> At(after, other) == At(before, other)
    requires CapturesRecorded(job, before, captures)
    ensures CapturesRecorded(job, after, captures)
    ensures forall j :: i < j < |job.captures| ==>
              SlotAt(after, CaptureOldObject, job.captures[j].path) == SlotAt(before, CaptureOldObject, job.captures[j].path)
  {
    forall j | 0 <= j < |job.captures| && j != i ensures job.captures[j].path != job.captures[i].path {
      assert CapturePaths(job.captures)[j] != CapturePaths(job.captures)[i];
    }
  }

  function StageKey(p: Path): Key {
    Key(StageIncomingPayload, Some(p))
  }

  /** One staging intent, where it is missing. */
  method IntendStage(app: Application, p: Path) returns (r: Flow<()>)
    requires app.Open() && app.ledger.state.Preparing? && RecoverIdle(app.ledger) && p in app.job.stages
    modifies app, app.store, app.history
    ensures r.Crashed? ==> app.MayCrash()
    ensures app.Safe()
    ensures r.Live? ==>
              && app.Open() && app.ledger.state.Preparing? && RecoverIdle(app.ledger)
              && OnlyPlaced(old(app.ledger), app.ledger, StageKey(p),
                            IntendedSlot(old(At(app.ledger, StageKey(p)))))
    ensures !r.Thrown?
  {
    hide Inv, StoredParts, Application.AwareOf, Attests;
    app.IsSafe();
    var progress := app.ProgressFor(StageKey(p));
    if !progress.intended {
      NeutralIdle(app.ledger, Preparing, StageKey(p), Intended);
      r := PublishNeutral(app, Preparing, Move(StageKey(p), Intent, None));
    } else {
      r := Live(());
    }
  }

  /** One staging terminal, where it is missing. */
  method ConcludeStage(app: Application, result: StageResult, p: Path) returns (r: Flow<()>)
    requires app.Open() && app.ledger.state.Preparing? && RecoverIdle(app.ledger) && p in app.job.stages
    requires !At(app.ledger, StageKey(p)).Idle? && !result.outcome.ConditionalRetained?
    requires app.first ==> StagedAs(app.ledger, result)
    modifies app, app.store, app.history
    ensures r.Crashed? ==> app.MayCrash()
    ensures app.Safe()
    ensures r.Live? ==>
              && app.Open() && app.ledger.state.Preparing? && RecoverIdle(app.ledger)
              && OnlyPlaced(old(app.ledger), app.ledger, StageKey(p), StagedSlot(old(At(app.ledger, StageKey(p))), result))
    ensures !r.Thrown?
  {
    hide Inv, StoredParts, Application.AwareOf, Attests;
    app.IsSafe();
    var fact := StageFact(result.outcome, result.evidence);
    var progress := app.ProgressFor(StageKey(p));
    if progress.terminal.None? {
      NeutralIdle(app.ledger, Preparing, StageKey(p), Done(TerminalOf(result.outcome), Some(fact)));
      r := PublishNeutral(app, Preparing, Move(StageKey(p), TerminalOf(result.outcome), Some(fact)));
    } else {
      r := Live(());
    }
  }

  /** Every staging fact is the one of this result. */
  ghost predicate StagedAs(ledger: Ledger, result: StageResult) {
    forall a: Key :: a.kind.StageIncomingPayload? && At(ledger, a).Done? ==>
                       At(ledger, a).fact == Some(StageFact(result.outcome, result.evidence))
  }

  /** Nothing was staged yet. */
  ghost predicate NoneStaged(ledger: Ledger) {
    forall a: Key :: a.kind.StageIncomingPayload? ==> !At(ledger, a).Done?
  }

  /** Exactly this slot may differ, and it is this one now. */
  ghost predicate OnlyPlaced(before: Ledger, after: Ledger, key: Key, slot: Slot) {
    At(after, key) == slot && forall other: Key :: other != key ==> At(after, other) == At(before, other)
  }

  function IntendedSlot(slot: Slot): Slot {
    if slot.Idle? then Intended else slot
  }

  function StagedSlot(slot: Slot, result: StageResult): Slot {
    if slot.Done? then slot else Done(TerminalOf(result.outcome), Some(StageFact(result.outcome, result.evidence)))
  }

  /** All staging intents, where they are missing. */
  method IntendStages(app: Application) returns (r: Flow<()>)
    requires app.Open() && app.ledger.state.Preparing? && RecoverIdle(app.ledger)
    modifies app, app.store, app.history
    ensures r.Crashed? ==> app.MayCrash()
    ensures app.Safe()
    ensures r.Live? ==> app.Open() && app.ledger.state.Preparing?
    ensures r.Live? ==> OnlyChanged(old(app.ledger), app.ledger, {StageIncomingPayload}) && RecoverIdle(app.ledger)
    ensures r.Live? ==> forall p :: p in app.job.stages ==>
                          At(app.ledger, StageKey(p)) == IntendedSlot(old(At(app.ledger, StageKey(p))))
    ensures r.Live? && NoneStaged(old(app.ledger)) ==> NoneStaged(app.ledger)
    ensures !r.Thrown?
  {
    hide Inv, StoredParts, Application.AwareOf, Attests;
    JobFacts(app);
    app.IsSafe();
    ghost var first := app.ledger;
    for i := 0 to |app.job.stages|
      invariant app.Open() && app.ledger.state.Preparing? && app.Safe() && RecoverIdle(app.ledger)
      invariant OnlyChanged(first, app.ledger, {StageIncomingPayload})
      invariant NoneStaged(first) ==> NoneStaged(app.ledger)
      invariant forall j :: 0 <= j < |app.job.stages| ==>
                              At(app.ledger, StageKey(app.job.stages[j])) ==
                              if j < i then IntendedSlot(At(first, StageKey(app.job.stages[j])))
                              else At(first, StageKey(app.job.stages[j]))
    {
      var intended :- IntendStage(app, app.job.stages[i]);
    }
    return Live(());
  }

  /** All staging terminals, where they are missing. */
  method ConcludeStages(app: Application, result: StageResult) returns (r: Flow<()>)
    requires app.Open() && app.ledger.state.Preparing? && RecoverIdle(app.ledger)
    requires forall p :: p in app.job.stages ==> !At(app.ledger, StageKey(p)).Idle?
    requires !result.outcome.ConditionalRetained?
    requires app.first ==> NoneStaged(app.ledger)
    modifies app, app.store, app.history
    ensures r.Crashed? ==> app.MayCrash()
    ensures app.Safe()
    ensures r.Live? ==> app.Open() && app.ledger.state.Preparing?
    ensures r.Live? ==> OnlyChanged(old(app.ledger), app.ledger, {StageIncomingPayload}) && RecoverIdle(app.ledger)
    ensures r.Live? ==> forall p :: p in app.job.stages ==>
                          At(app.ledger, StageKey(p)) == StagedSlot(old(At(app.ledger, StageKey(p))), result)
    ensures !r.Thrown?
  {
    hide Inv, StoredParts, Application.AwareOf, Attests;
    JobFacts(app);
    app.IsSafe();
    ghost var first := app.ledger;
    for i := 0 to |app.job.stages|
      invariant app.Open() && app.ledger.state.Preparing? && app.Safe() && RecoverIdle(app.ledger)
      invariant OnlyChanged(first, app.ledger, {StageIncomingPayload})
      invariant app.first ==> StagedAs(app.ledger, result)
      invariant forall j :: 0 <= j < |app.job.stages| ==>
                              At(app.ledger, StageKey(app.job.stages[j])) ==
                              if j < i then StagedSlot(At(first, StageKey(app.job.stages[j])), result)
                              else At(first, StageKey(app.job.stages[j]))
    {
      assert app.job.stages[i] in app.job.stages;
      var concluded :- ConcludeStage(app, result, app.job.stages[i]);
    }
    return Live(());
  }

  lemma StagesFinished(job: Job, ledger: Ledger)
    requires forall p :: p in job.stages ==> CompletedSlot(At(ledger, StageKey(p)))
    ensures Finished(job, ledger, {StageIncomingPayload})
  {
  }

  /** Stages the selected payloads under one intent and one terminal event for
      each regular entry. */
  method StageIncomingPayloads(app: Application) returns (r: Flow<(Status, bool)>)
    requires app.Open() && app.ledger.state.Preparing? && Untouched(app.ledger, {StageIncomingPayload})
    requires RecoverIdle(app.ledger)
    modifies app, app.store, app.history, app.backend
    ensures r.Crashed? ==> app.MayCrash()
    ensures r.Thrown? && r.fault == BackendFault ==> !app.backend.Honest()
    ensures app.Safe()
    ensures r.Live? && !r.value.1 ==> Fallen(app.ledger)
    ensures r.Live? ==> app.Open() && app.ledger.state.Preparing? && RecoverIdle(app.ledger)
    ensures r.Live? ==> OnlyChanged(old(app.ledger), app.ledger, {StageIncomingPayload})
    ensures r.Live? && r.value.1 ==>
              && Finished(app.job, app.ledger, {StageIncomingPayload})
              && r.value.0 == if app.job.selection == [] then NotAttempted else Visible
    ensures r.Thrown? ==> r.fault == BackendFault
  {
    hide Inv, StoredParts, Application.AwareOf, Attests;
    JobFacts(app);
    app.IsSafe();
    if app.job.selection == [] {
      StagesFinished(app.job, app.ledger);
      return Live((NotAttempted, true));
    }
    var intended :- IntendStages(app);
    app.IsSafe();
    var result :- app.backend.StagePayloads();
    if result.outcome.ConditionalRetained? {
      return Thrown(BackendFault);
    }
    var concluded :- ConcludeStages(app, result);
    app.IsSafe();
    if !result.outcome.Completed? {
      FallenAt(app.ledger, StageKey(app.job.stages[0]));
      return Live((StatusIndeterminate, false));
    }
    StagesFinished(app.job, app.ledger);
    return Live((Visible, true));
  }

  function RejectedKinds(): set<EffectKind> {
    {PublishRejectedObject, SynchronizeRejectedStore}
  }

  function ActiveKinds(): set<EffectKind> {
    {PublishActiveObject, SynchronizeActiveNamespace}
  }

  function CompletionKinds(): set<EffectKind> {
    {ObserveResult, PublishCompletedEvidence, SynchronizeCompletedEvidence, SealReceipt}
  }

  function RecoveryKinds(): set<EffectKind> {
    {RecoverActiveObject, SynchronizeRecoveredNamespace}
  }

  function DurableStatus(items: bool): Status {
    if items then Confirmed else NotAttempted
  }

  function PreparedDurability(job: Job): Durability {
    PreparationDurability(Confirmed, DurableStatus(job.selection != []), DurableStatus(job.captures != []))
  }

  /** A first run that is prepared: captured, staged, durable, and nothing
      else begun. */
  ghost predicate FreshlyPrepared(job: Job, ledger: Ledger, prepared: PreparedAttempt) {
    && ledger.state.Prepared?
    && AllCaptured(job, ledger, prepared.captures)
    && Finished(job, ledger, PreparationKinds())
    && Untouched(ledger, LaterKinds())
    && prepared.durability == PreparedDurability(job)
  }

  /** Makes one staging domain durable. */
  method SynchronizePreparation(app: Application, domain: Domain, kind: EffectKind) returns (r: Flow<Status>)
    requires app.Open() && app.ledger.state.Preparing? && RecoverIdle(app.ledger)
    requires DomainOf(kind) == Some(domain) && (kind.SynchronizeIncomingStaging? || kind.SynchronizeRecoveryStaging?)
    requires JobDeclares(app.job, Key(kind, None)) && !At(app.ledger, Key(kind, None)).Done?
    modifies app, app.store, app.history, app.backend
    ensures r.Crashed? ==> app.MayCrash()
    ensures r.Thrown? && r.fault == BackendFault ==> !app.backend.Honest()
    ensures app.Safe()
    ensures r.Live? && !r.value.Confirmed? ==> Fallen(app.ledger)
    ensures r.Live? ==> app.Open() && app.ledger.state.Preparing? && RecoverIdle(app.ledger)
    ensures r.Live? ==> OnlyChanged(old(app.ledger), app.ledger, {kind})
    ensures r.Live? && r.value.Confirmed? ==> Finished(app.job, app.ledger, {kind})
    ensures r.Thrown? ==> r.fault == BackendFault
  {
    hide Inv, StoredParts, Application.AwareOf, Attests;
    ghost var before := app.ledger;
    var status :- RunSynchronization(app, Preparing, domain, kind);
    UnchangedKinds(app.job, before, app.ledger, {kind}, {RecoverActiveObject});
    if status != Confirmed {
      FallenAt(app.ledger, Key(kind, None));
    }
    app.IsSafe();
    return Live(status);
  }

  function LaterKinds(): set<EffectKind> {
    RejectedKinds() + ActiveKinds() + CompletionKinds() + RecoveryKinds()
  }

  /** Captured and staged, nothing durable yet. */
  ghost predicate FreshlyStaged(job: Job, ledger: Ledger, captures: seq<CaptureResult>) {
    && AllCaptured(job, ledger, captures)
    && Finished(job, ledger, {CaptureOldObject, StageIncomingPayload})
    && Untouched(ledger, {SynchronizeIncomingStaging, SynchronizeRecoveryStaging} + LaterKinds())
  }

  /** Makes a staging domain that was used durable, or seals the failure. */
  method MakeDurable(app: Application, domain: Domain, kind: EffectKind, status: Status, incoming: Status, recovery: Status)
    returns (r: Flow<Phase<Status>>)
    requires app.Open() && app.ledger.state.Preparing? && RecoverIdle(app.ledger)
    requires DomainOf(kind) == Some(domain) && (kind.SynchronizeIncomingStaging? || kind.SynchronizeRecoveryStaging?)
    requires JobDeclares(app.job, Key(kind, None)) <==> status != NotAttempted
    requires !At(app.ledger, Key(kind, None)).Done?
    modifies app, app.store, app.history, app.backend
    ensures r.Crashed? ==> app.MayCrash()
    ensures r.Thrown? && r.fault == BackendFault ==> !app.backend.Honest()
    ensures app.Safe()
    ensures r.Live? && r.value.Sealed? ==> Fallen(app.ledger) && !r.value.receipt.outcome.AttemptCompleted?
    ensures r.Live? && r.value.Sealed? ==> app.ledger.receipt == Some(r.value.receipt)
    ensures r.Live? && r.value.Onward? ==>
              && app.Open() && app.ledger.state.Preparing? && RecoverIdle(app.ledger)
              && OnlyChanged(old(app.ledger), app.ledger, {kind}) && Finished(app.job, app.ledger, {kind})
              && r.value.value == DurableStatus(status != NotAttempted)
    ensures r.Thrown? ==> r.fault == BackendFault
  {
    hide Inv, StoredParts, Application.AwareOf, Attests;
    if status == NotAttempted {
      app.IsSafe();
      return Live(Onward(NotAttempted));
    }
    var made :- SynchronizePreparation(app, domain, kind);
    if made != Confirmed {
      ghost var before := app.ledger;
      var receipt :- FailPreparation(app, Confirmed, if kind.SynchronizeIncomingStaging? then made else incoming,
                                     if kind.SynchronizeIncomingStaging? then recovery else made);
      FallenKept(before, app.ledger, {});
      return Live(Sealed(receipt));
    }
    return Live(Onward(Confirmed));
  }

  method FinishPreparation(app: Application, captures: seq<CaptureResult>, incoming: Status, recovery: Status)
    returns (r: Flow<PreparedAttempt>)
    requires app.Open() && app.ledger.state.Preparing?
    requires AllCaptured(app.job, app.ledger, captures) && Finished(app.job, app.ledger, PreparationKinds())
    requires Untouched(app.ledger, LaterKinds())
    requires PreparationDurability(Confirmed, incoming, recovery) == PreparedDurability(app.job)
    modifies app, app.store, app.history
    ensures r.Crashed? ==> app.MayCrash()
    ensures app.Safe()
    ensures r.Live? ==> app.Open() && FreshlyPrepared(app.job, app.ledger, r.value)
    ensures !r.Thrown?
  {
    hide Inv, StoredParts, Application.AwareOf, Attests;
    UntouchedRecover(app.ledger, LaterKinds());
    var published :- PublishState(app, Prepared);
    app.IsSafe();
    return Live(PreparedAttempt(captures, PreparationDurability(Confirmed, incoming, recovery)));
  }

  /** Captured, staged and the staged payloads durable. */
  ghost predicate FreshlyStaging(job: Job, ledger: Ledger, captures: seq<CaptureResult>) {
    && AllCaptured(job, ledger, captures)
    && Finished(job, ledger, {CaptureOldObject, StageIncomingPayload, SynchronizeIncomingStaging})
    && Untouched(ledger, {SynchronizeRecoveryStaging} + LaterKinds())
  }

  /** Makes the captures durable and moves on to `prepared`. */
  method PrepareRecovery(app: Application, captures: seq<CaptureResult>, incoming: Status, captured: Status)
    returns (r: Flow<Phase<PreparedAttempt>>)
    requires app.Open() && app.ledger.state.Preparing? && FreshlyStaging(app.job, app.ledger, captures)
    requires incoming == DurableStatus(app.job.selection != [])
    requires captured == if app.job.captures == [] then NotAttempted else Visible
    modifies app, app.store, app.history, app.backend
    ensures r.Crashed? ==> app.MayCrash()
    ensures r.Thrown? && r.fault == BackendFault ==> !app.backend.Honest()
    ensures app.Safe()
    ensures r.Live? && r.value.Sealed? ==> Fallen(app.ledger) && !r.value.receipt.outcome.AttemptCompleted?
    ensures r.Live? && r.value.Sealed? ==> app.ledger.receipt == Some(r.value.receipt)
    ensures r.Live? && r.value.Onward? ==> app.Open() && FreshlyPrepared(app.job, app.ledger, r.value.value)
    ensures r.Thrown? ==> r.fault == BackendFault
  {
    hide Inv, StoredParts, Application.AwareOf, Attests;
    ghost var c := app.ledger;
    UntouchedRecover(c, {SynchronizeRecoveryStaging} + LaterKinds());
    var recovery :- MakeDurable(app, RecoveryStaging, SynchronizeRecoveryStaging, captured, incoming, NotAttempted);
    if recovery.Sealed? {
      return Live(Sealed(recovery.receipt));
    }
    PreparationFinished(app.job, c, app.ledger, captures);
    var prepared :- FinishPreparation(app, captures, incoming, recovery.value);
    return Live(Onward(prepared));
  }

  /** Makes both staging domains durable and moves on to `prepared`. */
  method PrepareDurably(app: Application, captures: seq<CaptureResult>, staged: Status, captured: Status)
    returns (r: Flow<Phase<PreparedAttempt>>)
    requires app.Open() && app.ledger.state.Preparing? && FreshlyStaged(app.job, app.ledger, captures)
    requires staged == if app.job.selection == [] then NotAttempted else Visible
    requires captured == if app.job.captures == [] then NotAttempted else Visible
    modifies app, app.store, app.history, app.backend
    ensures r.Crashed? ==> app.MayCrash()
    ensures r.Thrown? && r.fault == BackendFault ==> !app.backend.Honest()
    ensures app.Safe()
    ensures r.Live? && r.value.Sealed? ==> Fallen(app.ledger) && !r.value.receipt.outcome.AttemptCompleted?
    ensures r.Live? && r.value.Sealed? ==> app.ledger.receipt == Some(r.value.receipt)
    ensures r.Live? && r.value.Onward? ==> app.Open() && FreshlyPrepared(app.job, app.ledger, r.value.value)
    ensures r.Thrown? ==> r.fault == BackendFault
  {
    hide Inv, StoredParts, Application.AwareOf, Attests;
    ghost var b := app.ledger;
    UntouchedRecover(b, {SynchronizeIncomingStaging, SynchronizeRecoveryStaging} + LaterKinds());
    var incoming :- MakeDurable(app, IncomingStaging, SynchronizeIncomingStaging, staged, NotAttempted, captured);
    if incoming.Sealed? {
      return Live(Sealed(incoming.receipt));
    }
    StagingDurable(app.job, b, app.ledger, captures);
    r := PrepareRecovery(app, captures, incoming.value, captured);
  }

  lemma StagingDurable(job: Job, b: Ledger, c: Ledger, captures: seq<CaptureResult>)
    requires FreshlyStaged(job, b, captures)
    requires OnlyChanged(b, c, {SynchronizeIncomingStaging}) && Finished(job, c, {SynchronizeIncomingStaging})
    ensures FreshlyStaging(job, c, captures)
  {
    CapturesSame(job, b, c, captures, {SynchronizeIncomingStaging});
  }

  /** The preparation of a first run. */
  method Prepare(app: Application) returns (r: Flow<Phase<PreparedAttempt>>)
    requires app.Open() && app.ledger == EmptyLedger()
    modifies app, app.store, app.history, app.backend
    ensures r.Crashed? ==> app.MayCrash()
    ensures r.Thrown? && r.fault == BackendFault ==> !app.backend.Honest()
    ensures app.Safe()
    ensures r.Live? && r.value.Sealed? ==> Fallen(app.ledger) && !r.value.receipt.outcome.AttemptCompleted?
    ensures r.Live? && r.value.Sealed? ==> app.ledger.receipt == Some(r.value.receipt)
    ensures r.Live? && r.value.Onward? ==> app.Open() && FreshlyPrepared(app.job, app.ledger, r.value.value)
    ensures r.Thrown? ==> r.fault == BackendFault
  {
    hide Inv, StoredParts, Application.AwareOf, Attests;
    ghost var start := app.ledger;
    var captured :- CaptureOldObjects(app);
    NothingBegun(app);
    if !captured.2 {
      ghost var stopped := app.ledger;
      var receipt :- FailPreparation(app, Confirmed, NotAttempted, captured.1);
      FallenKept(stopped, app.ledger, {});
      return Live(Sealed(receipt));
    }
    ghost var a := app.ledger;
    var staged :- StageIncomingPayloads(app);
    if !staged.1 {
      ghost var stopped := app.ledger;
      var receipt :- FailPreparation(app, Confirmed, staged.0, captured.1);
      FallenKept(stopped, app.ledger, {});
      return Live(Sealed(receipt));
    }
    StagingFinished(app.job, start, a, app.ledger, captured.0);
    r := PrepareDurably(app, captured.0, staged.0, captured.1);
  }

  lemma StagingFinished(job: Job, start: Ledger, a: Ledger, b: Ledger, captures: seq<CaptureResult>)
    requires start == EmptyLedger() && OnlyChanged(start, a, {CaptureOldObject}) && AllCaptured(job, a, captures)
    requires OnlyChanged(a, b, {StageIncomingPayload}) && Finished(job, b, {StageIncomingPayload})
    ensures FreshlyStaged(job, b, captures)
  {
    CapturesSame(job, a, b, captures, {StageIncomingPayload});
    CapturesFinished(job, b, captures);
  }

  lemma CapturesFinished(job: Job, ledger: Ledger, captures: seq<CaptureResult>)
    requires AllCaptured(job, ledger, captures)
    ensures Finished(job, ledger, {CaptureOldObject})
  {
    forall key: Key | key.kind in {CaptureOldObject} && JobDeclares(job, key) ensures CompletedSlot(At(ledger, key)) {
      var i :| 0 <= i < |job.captures| && CapturePaths(job.captures)[i] == key.path.value;
      assert CaptureRecorded(job.captures[i], job.control, captures[i], SlotAt(ledger, CaptureOldObject, job.captures[i].path));
    }
  }

  lemma PreparationFinished(job: Job, c: Ledger, d: Ledger, captures: seq<CaptureResult>)
    requires FreshlyStaging(job, c, captures)
    requires OnlyChanged(c, d, {SynchronizeRecoveryStaging}) && Finished(job, d, {SynchronizeRecoveryStaging})
    ensures AllCaptured(job, d, captures) && Finished(job, d, PreparationKinds()) && Untouched(d, LaterKinds())
  {
    CapturesSame(job, c, d, captures, {SynchronizeRecoveryStaging});
  }
}
